/** A stable insertion sort, standing for the library's sort by a key. */
module Sorting {
  import opened Basics

  predicate SortedBy<T>(s: seq<T>, key: T -> int) {
    forall i, j | 0 <= i < j < |s| :: key(s[i]) <= key(s[j])
  }

  function Insert<T>(x: T, s: seq<T>, key: T -> int): seq<T> {
    if s == [] || key(x) <= key(s[0]) then [x] + s else [s[0]] + Insert(x, s[1..], key)
  }

  lemma {:induction false} InsertElements<T>(x: T, s: seq<T>, key: T -> int)
    ensures multiset(Insert(x, s, key)) == multiset{x} + multiset(s)
  {
    if s != [] && key(x) > key(s[0]) {
      InsertElements(x, s[1..], key);
      assert s == [s[0]] + s[1..];
    }
  }

  lemma {:induction false} InsertSorted<T>(x: T, s: seq<T>, key: T -> int)
    requires SortedBy(s, key)
    ensures SortedBy(Insert(x, s, key), key)
  {
    if s != [] && key(x) > key(s[0]) {
      var rest := Insert(x, s[1..], key);
      InsertSorted(x, s[1..], key);
      InsertElements(x, s[1..], key);
      forall j | 0 <= j < |rest| ensures key(s[0]) <= key(rest[j]) {
        assert rest[j] in multiset(rest);
        assert rest[j] == x || rest[j] in s[1..];
      }
    }
  }

  function SortBy<T>(s: seq<T>, key: T -> int): seq<T> {
    if s == [] then [] else Insert(s[0], SortBy(s[1..], key), key)
  }

  /** Sorting rearranges: every element is kept, as often as before. */
  lemma {:induction false} SortElements<T>(s: seq<T>, key: T -> int)
    ensures multiset(SortBy(s, key)) == multiset(s)
  {
    if s != [] {
      SortElements(s[1..], key);
      InsertElements(s[0], SortBy(s[1..], key), key);
      assert s == [s[0]] + s[1..];
    }
  }

  lemma {:induction false} SortIsSorted<T>(s: seq<T>, key: T -> int)
    ensures SortedBy(SortBy(s, key), key)
  {
    if s != [] {
      SortIsSorted(s[1..], key);
      InsertSorted(s[0], SortBy(s[1..], key), key);
    }
  }

  /** Sorting is the identity on sorted input, ties included. */
  lemma {:induction false} SortSorted<T>(s: seq<T>, key: T -> int)
    requires SortedBy(s, key)
    ensures SortBy(s, key) == s
  {
    if s != [] {
      SortSorted(s[1..], key);
      assert s == [s[0]] + s[1..];
    }
  }

  // ----- Selecting from a sorted list -----

  /** The results of `f` where it has one, in order. */
  function Select<A, B>(s: seq<A>, f: A -> Option<B>): seq<B> {
    if s == [] then []
    else if f(s[0]).Some? then [f(s[0]).value] + Select(s[1..], f)
    else Select(s[1..], f)
  }

  function Selected<B>(r: Option<B>): seq<B> {
    if r.Some? then [r.value] else []
  }

  lemma {:induction false} SelectAppend<A, B>(s: seq<A>, t: seq<A>, f: A -> Option<B>)
    ensures Select(s + t, f) == Select(s, f) + Select(t, f)
  {
    if s == [] {
      assert s + t == t;
    } else {
      assert (s + t)[1..] == s[1..] + t;
      SelectAppend(s[1..], t, f);
    }
  }

  lemma SelectNext<A, B>(s: seq<A>, i: nat, f: A -> Option<B>)
    requires i < |s|
    ensures Select(s[..i + 1], f) == Select(s[..i], f) + Selected(f(s[i]))
  {
    assert s[..i + 1] == s[..i] + [s[i]];
    SelectAppend(s[..i], [s[i]], f);
    assert [s[i]][1..] == [];
  }

  ghost predicate KeepsKey<A(!new), B>(f: A -> Option<B>, a: A -> int, b: B -> int) {
    forall x :: f(x).Some? ==> b(f(x).value) == a(x)
  }

  lemma {:induction false} SelectLate<A(!new), B>(s: seq<A>, f: A -> Option<B>, a: A -> int, b: B -> int, t: int)
    requires KeepsKey(f, a, b) && SortedBy(s, a) && (s != [] ==> t <= a(s[0]))
    ensures Select(s, f) != [] ==> t <= b(Select(s, f)[0])
  {
    if s != [] && f(s[0]).None? {
      SelectLate(s[1..], f, a, b, t);
    }
  }

  lemma SelectCons<A, B>(x: A, s: seq<A>, f: A -> Option<B>)
    ensures Select([x] + s, f) == Selected(f(x)) + Select(s, f)
  {
    assert ([x] + s)[1..] == s;
  }

  lemma {:induction false} SelectInsert<A(!new), B>(x: A, s: seq<A>, f: A -> Option<B>, a: A -> int, b: B -> int)
    requires KeepsKey(f, a, b) && SortedBy(s, a)
    ensures Select(Insert(x, s, a), f) == if f(x).Some? then Insert(f(x).value, Select(s, f), b) else Select(s, f)
  {
    if s == [] || a(x) <= a(s[0]) {
      SelectCons(x, s, f);
      SelectLate(s, f, a, b, a(x));
    } else {
      SelectCons(s[0], Insert(x, s[1..], a), f);
      SelectInsert(x, s[1..], f, a, b);
      assert Select([s[0]] + Insert(x, s[1..], a), f) == Select(Insert(x, s, a), f);
      if f(x).Some? && f(s[0]).Some? {
        assert b(f(x).value) == a(x) && b(f(s[0]).value) == a(s[0]);
        InsertAfter(f(x).value, f(s[0]).value, Select(s[1..], f), b);
      }
    }
  }

  lemma InsertAfter<B>(x: B, y: B, s: seq<B>, b: B -> int)
    requires b(x) > b(y)
    ensures Insert(x, [y] + s, b) == [y] + Insert(x, s, b)
  {
    assert ([y] + s)[1..] == s;
  }

  /** Selecting and stable sorting commute when the key is kept. */
  lemma {:induction false} SelectSorted<A(!new), B>(s: seq<A>, f: A -> Option<B>, a: A -> int, b: B -> int)
    requires KeepsKey(f, a, b)
    ensures Select(SortBy(s, a), f) == SortBy(Select(s, f), b)
  {
    if s != [] {
      SortIsSorted(s[1..], a);
      SelectInsert(s[0], SortBy(s[1..], a), f, a, b);
      SelectSorted(s[1..], f, a, b);
      if f(s[0]).Some? {
        assert Select(s, f) == [f(s[0]).value] + Select(s[1..], f);
        assert Select(s, f)[1..] == Select(s[1..], f);
        assert SortBy(Select(s, f), b) == Insert(f(s[0]).value, SortBy(Select(s[1..], f), b), b);
      }
    }
  }
}

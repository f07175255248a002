/** Channel topics and printed CAN ids of a recording, and how playback reads them back. */
module Topics {
  import opened Basics
  import opened Bits

  datatype Kind = Data | Raw | Other

  datatype ChannelInfo = ChannelInfo(kind: Kind, iface: string, name: string)

  // ----- Topics -----

  predicate EndsWith(s: string, suffix: string) {
    |s| >= |suffix| && s[|s| - |suffix|..] == suffix
  }

  /** The position of the first slash, or the length of the string. */
  function FirstSlash(s: string): (r: nat)
    ensures r <= |s|
    ensures r < |s| ==> s[r] == '/'
    ensures forall i | 0 <= i < r :: s[i] != '/'
  {
    if s == "" || s[0] == '/' then 0 else 1 + FirstSlash(s[1..])
  }

  function SuffixOf(kind: Kind): string {
    if kind.Data? then "/data" else "/raw"
  }

  /** The topic under one suffix, if it has that suffix and an interface part. */
  function ClassifyAs(topic: string, kind: Kind): Option<ChannelInfo> {
    var suffix := SuffixOf(kind);
    if |topic| <= |suffix| || !EndsWith(topic, suffix) then None
    else
      var base := topic[..|topic| - |suffix|];
      var sep := FirstSlash(base);
      if sep == |base| then None else Some(ChannelInfo(kind, base[..sep], base[sep + 1..]))
  }

  function ClassifyTopic(topic: string): ChannelInfo {
    var asData := ClassifyAs(topic, Data);
    if asData.Some? then asData.value
    else
      var asRaw := ClassifyAs(topic, Raw);
      if asRaw.Some? then asRaw.value else ChannelInfo(Other, "", "")
  }

  function BaseTopic(iface: string, name: string): string {
    iface + "/" + name
  }

  lemma FirstSlashOfBase(iface: string, name: string)
    ensures '/' !in iface <==> FirstSlash(BaseTopic(iface, name)) == |iface|
    ensures FirstSlash(BaseTopic(iface, name)) <= |iface|
  {
    var base := BaseTopic(iface, name);
    assert base[|iface|] == '/';
    assert forall i | 0 <= i < |iface| :: base[i] == iface[i];
    if '/' in iface {
      var i :| 0 <= i < |iface| && iface[i] == '/';
      assert base[i] == '/';
    }
  }

  /** A topic of either kind is read back as its interface and name if and only if the interface has no slash. */
  lemma ClassifyReadsBack(iface: string, name: string, kind: Kind)
    requires !kind.Other?
    ensures ClassifyTopic(BaseTopic(iface, name) + SuffixOf(kind)) == ChannelInfo(kind, iface, name) <==> '/' !in iface
    ensures ClassifyTopic(BaseTopic(iface, name) + SuffixOf(kind)).kind == kind
  {
    var base, suffix := BaseTopic(iface, name), SuffixOf(kind);
    var topic := base + suffix;
    assert topic[|topic| - |suffix|..] == suffix && topic[..|topic| - |suffix|] == base;
    FirstSlashOfBase(iface, name);
    if kind.Raw? {
      assert topic[|topic| - 1] == 'w';
      assert !EndsWith(topic, "/data") by {
        assert |topic| >= 5 ==> topic[|topic| - 5..][4] == topic[|topic| - 1];
      }
    }
    assert '/' !in iface ==> base[..|iface|] == iface && base[|iface| + 1..] == name;
  }

  lemma ClassifiedAs(topic: string, kind: Kind)
    requires ClassifyAs(topic, kind).Some?
    ensures var c := ClassifyAs(topic, kind).value;
            c.kind == kind && topic == BaseTopic(c.iface, c.name) + SuffixOf(kind) && '/' !in c.iface
  {
    var suffix := SuffixOf(kind);
    var base := topic[..|topic| - |suffix|];
    var sep := FirstSlash(base);
    assert topic == base + suffix;
    assert base == base[..sep] + "/" + base[sep + 1..];
  }

  /** Only such topics are classified: reading back and naming again gives the topic. */
  lemma {:induction false} NamingReadsBack(topic: string)
    requires !ClassifyTopic(topic).kind.Other?
    ensures var c := ClassifyTopic(topic);
            topic == BaseTopic(c.iface, c.name) + SuffixOf(c.kind) && '/' !in c.iface
  {
    if ClassifyAs(topic, Data).Some? {
      ClassifiedAs(topic, Data);
    } else {
      ClassifiedAs(topic, Raw);
    }
  }

  /** The update-ratio channel beside each message is never played back. */
  lemma RatioTopicIsOther(base: string)
    ensures ClassifyTopic(base + "/update_ratio").kind == Other
  {
    var topic := base + "/update_ratio";
    assert topic[|topic| - 1] == 'o';
    assert topic[|topic| - 5..][4] == 'o' && topic[|topic| - 4..][3] == 'o';
  }

  // ----- Printed ids -----

  function HexChar(d: nat): char
    requires d < 16
  {
    "0123456789ABCDEF"[d]
  }

  function HexValue(c: char): Option<nat> {
    if '0' <= c <= '9' then Some(c as nat - '0' as nat)
    else if 'a' <= c <= 'f' then Some(c as nat - 'a' as nat + 10)
    else if 'A' <= c <= 'F' then Some(c as nat - 'A' as nat + 10)
    else None
  }

  function HexDigits(n: nat): (s: string)
    ensures |s| > 0
  {
    if n < 16 then [HexChar(n)] else HexDigits(n / 16) + [HexChar(n % 16)]
  }

  function Padded(s: string, width: nat): string
    decreases width - |s|
  {
    if |s| >= width then s else Padded("0" + s, width)
  }

  /** At least three upper-case digits after the prefix. */
  function PrintId(id: nat): string {
    "0x" + Padded(HexDigits(id), 3)
  }

  predicate AllHex(s: string) {
    forall i | 0 <= i < |s| :: HexValue(s[i]).Some?
  }

  /** The value of the leading hexadecimal digits, continuing from `acc`. */
  function LeadingHex(s: string, acc: nat): nat {
    if s == "" || HexValue(s[0]).None? then acc else LeadingHex(s[1..], 16 * acc + HexValue(s[0]).value)
  }

  predicate IsSpace(c: char) {
    c == ' ' || ('\t' <= c <= '\r')
  }

  function SkipSpaces(s: string): string {
    if s != "" && IsSpace(s[0]) then SkipSpaces(s[1..]) else s
  }

  /** The standard library's conversion at base 16: blanks, a sign, a prefix, then digits; None where it throws. */
  function Stoul16(s: string): Option<nat> {
    var t := SkipSpaces(s);
    var negative := t != "" && t[0] == '-';
    var u := if t != "" && (t[0] == '-' || t[0] == '+') then t[1..] else t;
    var v := if |u| > 2 && u[0] == '0' && (u[1] == 'x' || u[1] == 'X') && HexValue(u[2]).Some? then u[2..] else u;
    if v == "" || HexValue(v[0]).None? then None
    else
      var value := LeadingHex(v, 0);
      if value >= Pow2(64) then None
      else if negative then Some((Pow2(64) - value) % Pow2(64)) else Some(value)
  }

  /** A printed id is read back; any other name is hashed to 11 bits. */
  function DeriveCanId(name: string, hash: string -> nat): nat {
    if |name| > 2 && name[0] == '0' && (name[1] == 'x' || name[1] == 'X') && Stoul16(name[2..]).Some?
    then Stoul16(name[2..]).value % Pow2(32)
    else hash(name) % 0x800
  }

  lemma HexCharValue(d: nat)
    requires d < 16
    ensures HexValue(HexChar(d)) == Some(d)
  {
  }

  lemma {:induction false} LeadingHexAppend(a: string, b: string, acc: nat)
    requires AllHex(a)
    ensures LeadingHex(a + b, acc) == LeadingHex(b, LeadingHex(a, acc))
    decreases |a|
  {
    if a == "" {
      assert a + b == b;
    } else {
      assert (a + b)[1..] == a[1..] + b;
      LeadingHexAppend(a[1..], b, 16 * acc + HexValue(a[0]).value);
    }
  }

  lemma {:induction false} DigitsReadBack(n: nat)
    ensures AllHex(HexDigits(n)) && LeadingHex(HexDigits(n), 0) == n
  {
    if n < 16 {
      HexCharValue(n);
      assert HexDigits(n)[1..] == "";
    } else {
      DigitsReadBack(n / 16);
      HexCharValue(n % 16);
      var last := [HexChar(n % 16)];
      LeadingHexAppend(HexDigits(n / 16), last, 0);
      assert last[1..] == "";
    }
  }

  lemma {:induction false} PaddingReadsBack(s: string, width: nat, n: nat)
    requires s != "" && AllHex(s) && LeadingHex(s, 0) == n
    ensures AllHex(Padded(s, width)) && LeadingHex(Padded(s, width), 0) == n && Padded(s, width) != ""
    decreases width - |s|
  {
    if |s| < width {
      assert ("0" + s)[1..] == s;
      PaddingReadsBack("0" + s, width, n);
    }
  }

  lemma PlainDigitsConvert(digits: string)
    requires digits != "" && AllHex(digits) && LeadingHex(digits, 0) < Pow2(64)
    ensures Stoul16(digits) == Some(LeadingHex(digits, 0))
  {
    assert HexValue(digits[0]).Some?;
    assert |digits| > 1 ==> HexValue(digits[1]).Some?;
    assert SkipSpaces(digits) == digits;
  }

  /** Reading back a printed id gives the id, for every 32-bit id. */
  lemma {:induction false} PrintedIdReadsBack(id: nat, hash: string -> nat)
    requires id < Pow2(32)
    ensures DeriveCanId(PrintId(id), hash) == id
  {
    var digits := Padded(HexDigits(id), 3);
    var name := PrintId(id);
    DigitsReadBack(id);
    PaddingReadsBack(HexDigits(id), 3, id);
    WiderIsLarger(32, 64);
    PlainDigitsConvert(digits);
    assert name[0] == '0' && name[1] == 'x' && name[2..] == digits;
    ModUnique(id, Pow2(32), 0, id);
  }

  lemma {:induction false} WiderIsLarger(a: nat, b: nat)
    requires a <= b
    ensures Pow2(a) <= Pow2(b)
    decreases b
  {
    if a < b {
      WiderIsLarger(a, b - 1);
    }
  }

  predicate UpperHex(c: char) {
    '0' <= c <= '9' || 'A' <= c <= 'F'
  }

  lemma {:induction false} DigitsShape(n: nat)
    ensures var s := HexDigits(n);
            (forall i | 0 <= i < |s| :: UpperHex(s[i])) && (n > 0 ==> s[0] != '0')
  {
    if n >= 16 {
      DigitsShape(n / 16);
    }
  }

  lemma {:induction false} PaddedShape(s: string, width: nat)
    requires forall i | 0 <= i < |s| :: UpperHex(s[i])
    ensures var p := Padded(s, width);
            (forall i | 0 <= i < |p| :: UpperHex(p[i])) && |p| == (if |s| < width then width else |s|) && (|s| >= width ==> p == s)
    decreases width - |s|
  {
    if |s| < width {
      PaddedShape("0" + s, width);
    }
  }

  /** A printed id is 0x and at least three upper-case digits, more only without a leading zero. */
  lemma PrintedIdShape(id: nat)
    ensures var s := PrintId(id);
            && |s| >= 5 && s[..2] == "0x" && (forall i | 2 <= i < |s| :: UpperHex(s[i]))
            && (|s| > 5 ==> s[2] != '0')
  {
    DigitsShape(id);
    PaddedShape(HexDigits(id), 3);
  }

  /** Every derived id has 32 bits; a name that does not begin like a printed id is hashed to 11 bits. */
  lemma DerivedIdMeans(name: string, hash: string -> nat)
    ensures DeriveCanId(name, hash) < Pow2(32)
    ensures |name| <= 2 || name[0] != '0' || (name[1] != 'x' && name[1] != 'X') ==> DeriveCanId(name, hash) == hash(name) % 2048
  {
    WiderIsLarger(11, 32);
    assert Pow2(11) == 2048 by {
      assert Pow2(4) == 16;
      assert Pow2(8) == 256;
    }
  }
}

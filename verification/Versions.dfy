/** RabbitMQ version texts: parsing, order and the changes that need a storage wipe. */
module Versions {
  import opened ApiObjects
  import opened Texts

  datatype Version = Version(major: int, minor: int, patch: int)

  // ---------------------------------------------------------------- numbers

  predicate IsDigit(c: char) {
    '0' <= c <= '9'
  }

  function DigitValue(c: char): nat
    requires IsDigit(c)
  {
    c as int - '0' as int
  }

  predicate Digits(s: string) {
    s != "" && forall i :: 0 <= i < |s| ==> IsDigit(s[i])
  }

  function Value(s: string): (n: nat)
    requires forall i :: 0 <= i < |s| ==> IsDigit(s[i])
  {
    if s == "" then 0 else 10 * Value(s[..|s| - 1]) + DigitValue(s[|s| - 1])
  }

  const INT_MAX: int := 0x7FFF_FFFF_FFFF_FFFF

  /** strconv.Atoi on a 64-bit machine: an optional sign, digits, and a value in range. */
  function Atoi(s: string): (r: Option<int>) {
    var signed := s != "" && (s[0] == '+' || s[0] == '-');
    var digits := if signed then s[1..] else s;
    if !Digits(digits) then None
    else if signed && s[0] == '-' then (if Value(digits) <= INT_MAX + 1 then Some(0 - Value(digits) as int) else None)
    else if Value(digits) <= INT_MAX then Some(Value(digits))
    else None
  }

  // ---------------------------------------------------------------- versions

  /** ParseRabbitMQVersion: major and minor are mandatory, a fourth part is ignored. */
  function Parse(s: string): (r: Option<Version>) {
    var parts := Split(s, '.');
    if |parts| < 2 then None
    else
      var major, minor := Atoi(parts[0]), Atoi(parts[1]);
      var patch := if |parts| > 2 then Atoi(parts[2]) else Some(0);
      if major.None? || minor.None? || patch.None? then None
      else Some(Version(major.value, minor.value, patch.value))
  }

  predicate Below(a: Version, b: Version) {
    || a.major < b.major
    || (a.major == b.major && a.minor < b.minor)
    || (a.major == b.major && a.minor == b.minor && a.patch < b.patch)
  }

  /** The order of version texts; a text that cannot be parsed is only at most itself. */
  predicate AtMost(a: string, b: string) {
    a == b || (Parse(a).Some? && Parse(b).Some? && !Below(Parse(b).value, Parse(a).value))
  }

  predicate Is3xTo4x(current: string, target: string) {
    Parse(current).Some? && Parse(target).Some? && Parse(current).value.major == 3 && Parse(target).value.major >= 4
  }

  predicate IsVersion4OrLater(s: string) {
    Parse(s).Some? && Parse(s).value.major >= 4
  }

  /** RequiresStorageWipe: None when one of two different versions cannot be parsed. */
  function RequiresStorageWipe(from: string, to: string): (r: Option<bool>) {
    if from == to then Some(false)
    else if Parse(from).None? || Parse(to).None? then None
    else
      var a, b := Parse(from).value, Parse(to).value;
      Some(!(a.major == b.major && a.minor == b.minor))
  }

  /** The texts the CRD admits: two or three digit groups. */
  ghost predicate ValidPattern(s: string) {
    || (exists a, b :: Digits(a) && Digits(b) && s == a + "." + b)
    || (exists a, b, c :: Digits(a) && Digits(b) && Digits(c) && s == a + "." + b + "." + c)
  }

  /** ValidVersionPattern, decided on the parts. */
  predicate ValidVersion(s: string) {
    var parts := Split(s, '.');
    2 <= |parts| <= 3 && forall i :: 0 <= i < |parts| ==> Digits(parts[i])
  }

  // ---------------------------------------------------------------- properties

  function Decimal(n: nat): (s: string)
    ensures Digits(s)
  {
    if n < 10 then [('0' as int + n) as char] else Decimal(n / 10) + [('0' as int + n % 10) as char]
  }

  lemma {:induction false} DecimalValue(n: nat)
    ensures Value(Decimal(n)) == n
  {
    var s := Decimal(n);
    if n < 10 {
      assert s[..|s| - 1] == "";
    } else {
      DecimalValue(n / 10);
      assert s[..|s| - 1] == Decimal(n / 10);
    }
  }

  function Show(v: Version): string
    requires v.major >= 0 && v.minor >= 0 && v.patch >= 0
  {
    Decimal(v.major) + "." + Decimal(v.minor) + "." + Decimal(v.patch)
  }

  lemma DottedParse(a: string, b: string, c: string)
    requires Digits(a) && Digits(b) && Digits(c)
    ensures Split(a + "." + b, '.') == [a, b]
    ensures Split(a + "." + b + "." + c, '.') == [a, b, c]
  {
    SplitFirst(a, '.', b);
    SplitNone(b, '.');
    SplitNone(c, '.');
    SplitFirst(b, '.', c);
    assert a + "." + b + "." + c == a + "." + (b + "." + c);
    SplitFirst(a, '.', b + "." + c);
  }

  lemma ValidMatches(s: string)
    ensures ValidVersion(s) <==> ValidPattern(s)
  {
    var parts := Split(s, '.');
    JoinSplit(s, '.');
    if |parts| == 2 {
      assert s == parts[0] + "." + parts[1];
    } else if |parts| == 3 {
      assert parts[1..][1..] == [parts[2]];
      assert Join(parts[1..], '.') == parts[1] + "." + parts[2];
      assert s == parts[0] + "." + parts[1] + "." + parts[2];
    }
    if ValidPattern(s) {
      if a, b :| Digits(a) && Digits(b) && s == a + "." + b {
        DottedParse(a, b, b);
      } else {
        var a, b, c :| Digits(a) && Digits(b) && Digits(c) && s == a + "." + b + "." + c;
        DottedParse(a, b, c);
      }
    }
  }

  lemma ParseShow(v: Version)
    requires 0 <= v.major <= INT_MAX && 0 <= v.minor <= INT_MAX && 0 <= v.patch <= INT_MAX
    ensures Parse(Show(v)) == Some(v) && ValidPattern(Show(v))
  {
    var a, b, c := Decimal(v.major), Decimal(v.minor), Decimal(v.patch);
    DottedParse(a, b, c);
    DecimalValue(v.major);
    DecimalValue(v.minor);
    DecimalValue(v.patch);
  }

  /** An admitted text fails to parse only because a group is out of range. */
  lemma PatternParses(a: string, b: string, c: string)
    requires Digits(a) && Digits(b) && Digits(c)
    ensures Parse(a + "." + b) ==
              if Value(a) <= INT_MAX && Value(b) <= INT_MAX then Some(Version(Value(a), Value(b), 0)) else None
    ensures Parse(a + "." + b + "." + c) ==
              if Value(a) <= INT_MAX && Value(b) <= INT_MAX && Value(c) <= INT_MAX
              then Some(Version(Value(a), Value(b), Value(c))) else None
  {
    DottedParse(a, b, c);
  }

  predicate InRange(v: Version) {
    0 <= v.major <= INT_MAX && 0 <= v.minor <= INT_MAX && 0 <= v.patch <= INT_MAX
  }

  predicate SameMinor(v: Version, w: Version) {
    v.major == w.major && v.minor == w.minor
  }

  /** Going from one version to another wipes the storage exactly when the major or the minor
      number changes. */
  lemma WipeExactly(v: Version, w: Version)
    requires InRange(v) && InRange(w)
    ensures RequiresStorageWipe(Show(v), Show(w)) == Some(!SameMinor(v, w))
  {
    ParseShow(v);
    ParseShow(w);
  }

  /** The order of the numbers, component by component. */
  predicate NotAbove(v: Version, w: Version) {
    v.major <= w.major && (v.major == w.major ==> v.minor <= w.minor && (v.minor == w.minor ==> v.patch <= w.patch))
  }

  lemma OrderExactly(v: Version, w: Version)
    requires InRange(v) && InRange(w)
    ensures AtMost(Show(v), Show(w)) <==> NotAbove(v, w)
  {
    ParseShow(v);
    ParseShow(w);
  }

  /** An ordered pair of texts has ordered numbers. */
  lemma AtMostMeans(a: string, b: string)
    requires AtMost(a, b) && Parse(a).Some?
    ensures Parse(b).Some? && NotAbove(Parse(a).value, Parse(b).value)
  {
  }

  lemma AtMostTransitive(a: string, b: string, c: string)
    requires AtMost(a, b) && AtMost(b, c)
    ensures AtMost(a, c)
  {
  }
}

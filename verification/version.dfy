/**
 * The package version string built from the `__version_info__` record, and a
 * parser for that string that serves as its inverse.
 */
module Version {
  import opened Wrappers

  /** The `__version_info__` dictionary: three integers, a release level and a serial. */
  datatype VersionInfo = VersionInfo(major: int, minor: int, micro: int, releaselevel: string, serial: int)

  /** The values the package ships with. */
  const Shipped: VersionInfo := VersionInfo(0, 1, 0, "alpha", 1)

  /** The release level that suppresses the release suffix. */
  const Final: string := "final"

  predicate IsDigit(c: char) {
    '0' <= c <= '9'
  }

  predicate IsLetter(c: char) {
    'a' <= c <= 'z' || 'A' <= c <= 'Z'
  }

  predicate AllDigits(s: string) {
    forall i :: 0 <= i < |s| ==> IsDigit(s[i])
  }

  function DigitValue(c: char): nat
    requires IsDigit(c)
  {
    c as int - '0' as int
  }

  function DigitChar(d: nat): (c: char)
    requires d < 10
    ensures IsDigit(c) && DigitValue(c) == d
  {
    ('0' as int + d) as char
  }

  /** The decimal digits of `n`, most significant first, without leading zeros. */
  function NatToString(n: nat): (s: string)
    ensures |s| > 0 && AllDigits(s)
    ensures n > 0 ==> s[0] != '0'
    decreases n
  {
    if n < 10 then [DigitChar(n)] else NatToString(n / 10) + [DigitChar(n % 10)]
  }

  /** Python's `"%i" % n`: a minus sign before the digits of a negative number. */
  function IntToString(n: int): (s: string)
    ensures |s| > 0 && (IsDigit(s[0]) || s[0] == '-')
    ensures n >= 0 <==> IsDigit(s[0])
  {
    if n < 0 then "-" + NatToString(-n) else NatToString(n)
  }

  /** `''.join(pieces)`. */
  function Concat(pieces: seq<string>): string {
    if |pieces| == 0 then "" else pieces[0] + Concat(pieces[1..])
  }

  /** `get_version(short)` over the record `v`. */
  function GetVersion(v: VersionInfo, short: bool): (s: string)
    ensures IntToString(v.major) + "." + IntToString(v.minor) <= s
  {
    var vers0 := [IntToString(v.major) + "." + IntToString(v.minor)];
    var vers1 := if v.micro != 0 then vers0 + ["." + IntToString(v.micro)] else vers0;
    var vers2 := if v.releaselevel != Final && !short then vers1 + [v.releaselevel + IntToString(v.serial)] else vers1;
    ConcatAppend(vers0, "." + IntToString(v.micro));
    ConcatAppend(vers1, v.releaselevel + IntToString(v.serial));
    Concat(vers2)
  }

  /** `__version__`. */
  const VersionString: string := GetVersion(Shipped, false)

  /** The `.<micro>` piece: present exactly when `micro` is non-zero. */
  function MicroPart(v: VersionInfo): string {
    if v.micro != 0 then "." + IntToString(v.micro) else ""
  }

  /** The `<releaselevel><serial>` piece: present exactly for a long form of a non-final release. */
  function ReleasePart(v: VersionInfo, short: bool): string {
    if v.releaselevel != Final && !short then v.releaselevel + IntToString(v.serial) else ""
  }

  lemma {:induction false} ConcatAppend(pieces: seq<string>, p: string)
    ensures Concat(pieces + [p]) == Concat(pieces) + p
    decreases |pieces|
  {
    if |pieces| == 0 {
      assert pieces + [p] == [p];
      assert Concat([p]) == p + Concat([]);
    } else {
      assert (pieces + [p])[1..] == pieces[1..] + [p];
      ConcatAppend(pieces[1..], p);
    }
  }

  /** The pieces appear in the fixed order major.minor, micro, release suffix, with nothing in between. */
  lemma GetVersionLayout(v: VersionInfo, short: bool)
    ensures GetVersion(v, short) == IntToString(v.major) + "." + IntToString(v.minor) + MicroPart(v) + ReleasePart(v, short)
  {
    var head := IntToString(v.major) + "." + IntToString(v.minor);
    assert Concat([head]) == head + Concat([]);
    ConcatAppend([head], "." + IntToString(v.micro));
    var vers1 := if v.micro != 0 then [head] + ["." + IntToString(v.micro)] else [head];
    assert Concat(vers1) == head + MicroPart(v);
    ConcatAppend(vers1, v.releaselevel + IntToString(v.serial));
  }

  /** The long form is the short form followed by the release suffix, and that suffix is there exactly for a non-final release. */
  lemma ReleaseSuffixOnlyInLongForm(v: VersionInfo)
    ensures v.releaselevel != Final ==> GetVersion(v, false) == GetVersion(v, true) + v.releaselevel + IntToString(v.serial)
    ensures v.releaselevel == Final ==> GetVersion(v, false) == GetVersion(v, true)
  {
    var head := IntToString(v.major) + "." + IntToString(v.minor) + MicroPart(v);
    GetVersionLayout(v, false);
    GetVersionLayout(v, true);
    assert GetVersion(v, true) == head + "";
    assert head + "" == head;
    if v.releaselevel != Final {
      assert GetVersion(v, false) == head + (v.releaselevel + IntToString(v.serial));
    }
  }

  /** The short form is the long form of the same record made final. */
  lemma ShortFormIsFinalLongForm(v: VersionInfo)
    ensures GetVersion(v, true) == GetVersion(v.(releaselevel := Final), false)
  {
    var w := v.(releaselevel := Final);
    GetVersionLayout(v, true);
    GetVersionLayout(w, false);
    assert MicroPart(w) == MicroPart(v);
    assert ReleasePart(w, false) == ReleasePart(v, true);
  }

  /** The short form is bare `major.minor` exactly when `micro` is zero. */
  lemma MicroShownIffNonZero(v: VersionInfo)
    ensures GetVersion(v, true) == IntToString(v.major) + "." + IntToString(v.minor) <==> v.micro == 0
  {
    GetVersionLayout(v, true);
    if v.micro != 0 {
      assert |GetVersion(v, true)| > |IntToString(v.major) + "." + IntToString(v.minor)|;
    }
  }

  /** The shipped record gives `0.1alpha1`, and `0.1` in short form. */
  lemma ShippedVersion()
    ensures VersionString == "0.1alpha1"
    ensures GetVersion(Shipped, true) == "0.1"
  {
    GetVersionLayout(Shipped, false);
    GetVersionLayout(Shipped, true);
    assert NatToString(0) == "0";
    assert NatToString(1) == "1";
    assert IntToString(0) == "0";
    assert IntToString(1) == "1";
  }

  // ---------------------------------------------------------------------------
  // Reading a version string back

  /** The value of a string of decimal digits. */
  function StringToNat(s: string): nat
    requires AllDigits(s)
    decreases |s|
  {
    if |s| == 0 then 0 else StringToNat(s[..|s| - 1]) * 10 + DigitValue(s[|s| - 1])
  }

  lemma {:induction false} NatStringRoundTrip(n: nat)
    ensures StringToNat(NatToString(n)) == n
    decreases n
  {
    var s := NatToString(n);
    if n < 10 {
      assert s[..|s| - 1] == [];
    } else {
      var p := NatToString(n / 10);
      assert s == p + [DigitChar(n % 10)];
      assert s[..|s| - 1] == p;
      NatStringRoundTrip(n / 10);
    }
  }

  /** Length of the longest all-digit prefix of `s`. */
  function DigitSpan(s: string): (k: nat)
    ensures k <= |s|
    ensures forall i :: 0 <= i < k ==> IsDigit(s[i])
    ensures k < |s| ==> !IsDigit(s[k])
    decreases |s|
  {
    if |s| == 0 || !IsDigit(s[0]) then 0 else 1 + DigitSpan(s[1..])
  }

  /** Length of the longest all-letter prefix of `s`. */
  function LetterSpan(s: string): (k: nat)
    ensures k <= |s|
    ensures forall i :: 0 <= i < k ==> IsLetter(s[i])
    ensures k < |s| ==> !IsLetter(s[k])
    decreases |s|
  {
    if |s| == 0 || !IsLetter(s[0]) then 0 else 1 + LetterSpan(s[1..])
  }

  /** Reads the digits at the front of `t`: their value and what follows them. */
  function ReadNat(t: string): Option<(nat, string)> {
    var k := DigitSpan(t);
    if k == 0 then None else Some((StringToNat(t[..k]), t[k..]))
  }

  /** Reads a `%i`-formatted integer at the front of `s`: its value and what follows it. */
  function ReadInt(s: string): Option<(int, string)> {
    if |s| > 0 && s[0] == '-' then
      var p :- ReadNat(s[1..]);
      var v: int := -(p.0 as int);
      Some((v, p.1))
    else
      var p :- ReadNat(s);
      Some((p.0 as int, p.1))
  }

  /** Reads `major.minor[.micro][releaselevel serial]`; a missing suffix reads as a final release with serial 0. */
  function ParseVersion(s: string): Option<VersionInfo> {
    var p1 :- ReadInt(s);
    var r1 := p1.1;
    if |r1| == 0 || r1[0] != '.' then None
    else
      var p2 :- ReadInt(r1[1..]);
      ParseMicro(p1.0, p2.0, p2.1)
  }

  /** Reads the optional `.micro` after `major.minor`. */
  function ParseMicro(major: int, minor: int, r: string): Option<VersionInfo> {
    if |r| > 0 && r[0] == '.' then
      var p :- ReadInt(r[1..]);
      ParseRelease(major, minor, p.0, p.1)
    else
      ParseRelease(major, minor, 0, r)
  }

  /** Reads the optional `releaselevel serial` suffix, which must end the string. */
  function ParseRelease(major: int, minor: int, micro: int, r: string): Option<VersionInfo> {
    if r == [] then Some(VersionInfo(major, minor, micro, Final, 0))
    else
      var k := LetterSpan(r);
      var p :- ReadInt(r[k..]);
      if k == 0 || p.1 != [] then None
      else Some(VersionInfo(major, minor, micro, r[..k], p.0))
  }

  /** A release level the parser can read back: one or more letters. */
  predicate ReadableLevel(level: string) {
    |level| > 0 && forall i :: 0 <= i < |level| ==> IsLetter(level[i])
  }

  /** What survives a format-then-parse trip: the short form and a final release both drop level and serial. */
  function Recovered(v: VersionInfo, short: bool): VersionInfo {
    if short || v.releaselevel == Final then v.(releaselevel := Final, serial := 0) else v
  }

  lemma ReadNatString(n: nat, rest: string)
    requires rest == [] || !IsDigit(rest[0])
    ensures ReadNat(NatToString(n) + rest) == Some((n, rest))
  {
    var d := NatToString(n);
    assert (d + rest)[..|d|] == d;
    assert (d + rest)[|d|..] == rest;
    assert DigitSpan(d + rest) == |d|;
    NatStringRoundTrip(n);
  }

  lemma ReadIntNegative(n: int, rest: string)
    requires n < 0
    requires rest == [] || !IsDigit(rest[0])
    ensures ReadInt(IntToString(n) + rest) == Some((n, rest))
  {
    var d := NatToString(-n);
    var t := d + rest;
    var s := IntToString(n) + rest;
    assert s == "-" + t;
    assert s[0] == '-' && s[1..] == t;
    ReadNatString(-n, rest);
    assert ReadNat(s[1..]) == Some((-n, rest));
  }

  lemma ReadIntNonNegative(n: int, rest: string)
    requires n >= 0
    requires rest == [] || !IsDigit(rest[0])
    ensures ReadInt(IntToString(n) + rest) == Some((n, rest))
  {
    var d := NatToString(n);
    var s := IntToString(n) + rest;
    ReadNatString(n, rest);
    assert s == d + rest;
    assert s[0] == d[0];
  }

  lemma ReadIntString(n: int, rest: string)
    requires rest == [] || !IsDigit(rest[0])
    ensures ReadInt(IntToString(n) + rest) == Some((n, rest))
  {
    if n < 0 {
      ReadIntNegative(n, rest);
    } else {
      ReadIntNonNegative(n, rest);
    }
  }

  lemma LetterSpanOfLevel(level: string, rest: string)
    requires ReadableLevel(level)
    requires rest == [] || !IsLetter(rest[0])
    ensures LetterSpan(level + rest) == |level|
    ensures (level + rest)[..|level|] == level && (level + rest)[|level|..] == rest
  {
    assert (level + rest)[..|level|] == level;
    assert (level + rest)[|level|..] == rest;
  }

  lemma ParseReleasePart(v: VersionInfo, short: bool)
    requires short || ReadableLevel(v.releaselevel)
    ensures ParseRelease(v.major, v.minor, v.micro, ReleasePart(v, short)) == Some(Recovered(v, short))
  {
    var r := ReleasePart(v, short);
    if r != [] {
      var e := IntToString(v.serial);
      LetterSpanOfLevel(v.releaselevel, e);
      ReadIntString(v.serial, []);
      assert e + [] == e;
    }
  }

  lemma ParseMicroShown(major: int, minor: int, micro: int, r: string)
    requires r == [] || IsLetter(r[0])
    ensures ParseMicro(major, minor, "." + (IntToString(micro) + r)) == ParseRelease(major, minor, micro, r)
  {
    var t := "." + (IntToString(micro) + r);
    assert t[0] == '.' && t[1..] == IntToString(micro) + r;
    ReadIntString(micro, r);
  }

  lemma ParseMicroAbsent(major: int, minor: int, r: string)
    requires r == [] || IsLetter(r[0])
    ensures ParseMicro(major, minor, r) == ParseRelease(major, minor, 0, r)
  {
  }

  lemma ParseMicroPart(v: VersionInfo, short: bool)
    requires short || ReadableLevel(v.releaselevel)
    ensures ParseMicro(v.major, v.minor, MicroPart(v) + ReleasePart(v, short)) == Some(Recovered(v, short))
  {
    var r := ReleasePart(v, short);
    ParseReleasePart(v, short);
    if r != [] {
      assert r[0] == v.releaselevel[0];
    }
    if v.micro != 0 {
      assert MicroPart(v) + r == "." + (IntToString(v.micro) + r);
      ParseMicroShown(v.major, v.minor, v.micro, r);
    } else {
      assert MicroPart(v) + r == r;
      ParseMicroAbsent(v.major, v.minor, r);
    }
  }

  lemma ParseVersionHead(major: int, minor: int, tail: string)
    requires tail == [] || !IsDigit(tail[0])
    ensures ParseVersion(IntToString(major) + ("." + (IntToString(minor) + tail))) == ParseMicro(major, minor, tail)
  {
    var r1 := "." + (IntToString(minor) + tail);
    ReadIntString(major, r1);
    assert r1[0] == '.' && r1[1..] == IntToString(minor) + tail;
    ReadIntString(minor, tail);
  }

  /** Parsing a formatted version gives back the record, up to what the format leaves out. */
  lemma ParseGetVersion(v: VersionInfo, short: bool)
    requires short || ReadableLevel(v.releaselevel)
    ensures ParseVersion(GetVersion(v, short)) == Some(Recovered(v, short))
  {
    var m := MicroPart(v);
    var r := ReleasePart(v, short);
    GetVersionLayout(v, short);
    assert GetVersion(v, short) == IntToString(v.major) + ("." + (IntToString(v.minor) + (m + r)));
    if r != [] {
      assert r[0] == v.releaselevel[0];
    }
    if m != [] {
      assert (m + r)[0] == '.';
    } else {
      assert m + r == r;
    }
    ParseVersionHead(v.major, v.minor, m + r);
    ParseMicroPart(v, short);
  }
}

/** String helpers shared by the model: decimal rendering of numbers used in
    messages, code-point string comparison (standing in for `localeCompare`)
    and `Array.prototype.join`. */
module Strings {

  predicate IsDigit(c: char) {
    '0' <= c <= '9'
  }

  function DigitChar(d: nat): (c: char)
    requires d < 10
    ensures IsDigit(c)
  {
    (('0' as int) + d) as char
  }

  function DigitValue(c: char): nat
    requires IsDigit(c)
  {
    (c as int) - ('0' as int)
  }

  predicate AllDigits(s: string) {
    forall i :: 0 <= i < |s| ==> IsDigit(s[i])
  }

  /** Decimal rendering of a natural number, as a template literal prints it. */
  function NatToString(n: nat): (s: string)
    ensures |s| > 0 && AllDigits(s)
    decreases n
  {
    if n < 10 then [DigitChar(n)] else NatToString(n / 10) + [DigitChar(n % 10)]
  }

  /** The value of a string of decimal digits. */
  function ParseDigits(s: string): nat
    requires AllDigits(s)
  {
    if s == [] then 0 else ParseDigits(s[..|s| - 1]) * 10 + DigitValue(s[|s| - 1])
  }

  /** Reading the rendered digits back gives the number: the rendering loses nothing. */
  lemma {:induction false} NatToStringRoundTrip(n: nat)
    ensures ParseDigits(NatToString(n)) == n
    decreases n
  {
    if n >= 10 {
      var s := NatToString(n);
      var p := NatToString(n / 10);
      assert s[..|s| - 1] == p;
      NatToStringRoundTrip(n / 10);
    }
  }

  /** The longest prefix of `s` made of digits. */
  function LeadingDigits(s: string): (d: string)
    ensures AllDigits(d) && d <= s
  {
    if s != [] && IsDigit(s[0]) then [s[0]] + LeadingDigits(s[1..]) else []
  }

  lemma {:induction false} LeadingDigitsOfDigits(d: string, rest: string)
    requires AllDigits(d)
    requires rest == [] || !IsDigit(rest[0])
    ensures LeadingDigits(d + rest) == d
  {
    if d != [] {
      assert (d + rest)[1..] == d[1..] + rest;
      LeadingDigitsOfDigits(d[1..], rest);
    } else {
      assert d + rest == rest;
    }
  }

  /** Three-way comparison by code points: -1, 0 or 1. The source uses
      `localeCompare`; a locale's collation is not modelled. */
  function StrCompare(a: string, b: string): int
  {
    if a == [] && b == [] then 0
    else if a == [] then -1
    else if b == [] then 1
    else if a[0] < b[0] then -1
    else if a[0] > b[0] then 1
    else StrCompare(a[1..], b[1..])
  }

  /** The comparison is zero exactly on equal strings. */
  lemma {:induction false} StrCompareZero(a: string, b: string)
    ensures StrCompare(a, b) == 0 <==> a == b
  {
    if a != [] && b != [] && a[0] == b[0] {
      StrCompareZero(a[1..], b[1..]);
      assert a == [a[0]] + a[1..] && b == [b[0]] + b[1..];
    }
  }

  /** Swapping the arguments negates the comparison. */
  lemma {:induction false} StrCompareAntisymmetric(a: string, b: string)
    ensures StrCompare(a, b) == -StrCompare(b, a)
  {
    if a != [] && b != [] && a[0] == b[0] {
      StrCompareAntisymmetric(a[1..], b[1..]);
    }
  }

  /** "Not after" by code points is transitive. */
  lemma {:induction false} StrCompareTransitive(a: string, b: string, c: string)
    requires StrCompare(a, b) <= 0 && StrCompare(b, c) <= 0
    ensures StrCompare(a, c) <= 0
  {
    if a != [] && b != [] && c != [] && a[0] == b[0] && b[0] == c[0] {
      StrCompareTransitive(a[1..], b[1..], c[1..]);
    }
  }

  /** `lines.join(sep)`: every line once, in order, with one separator
      between neighbours and none at either end (`JoinLines`, `JoinSeparators`). */
  function Join(lines: seq<string>, sep: string): (r: string)
    ensures lines == [] ==> r == ""
    ensures lines != [] ==> |r| + |sep| == Offset(lines, sep, |lines|)
    ensures lines != [] ==> r[..|lines[0]|] == lines[0]
    ensures |lines| >= 2 ==> |lines[0]| + |sep| <= |r| && r[|lines[0]|..|lines[0]| + |sep|] == sep
  {
    if lines == [] then ""
    else if |lines| == 1 then lines[0]
    else lines[0] + sep + Join(lines[1..], sep)
  }

  /** Where line `i` starts in the joined text: each earlier line and one
      separator after it come first. */
  function Offset(lines: seq<string>, sep: string, i: nat): nat
    requires i <= |lines|
  {
    if i == 0 then 0 else |lines[0]| + |sep| + Offset(lines[1..], sep, i - 1)
  }

  /** The joined text, line by line: line `i` sits at `Offset(i)`. */
  lemma {:induction false} JoinLines(lines: seq<string>, sep: string)
    ensures forall i :: 0 <= i < |lines| ==>
      Offset(lines, sep, i) + |lines[i]| <= |Join(lines, sep)|
      && Join(lines, sep)[Offset(lines, sep, i)..Offset(lines, sep, i) + |lines[i]|] == lines[i]
  {
    forall i | 0 <= i < |lines|
      ensures Offset(lines, sep, i) + |lines[i]| <= |Join(lines, sep)|
      ensures Join(lines, sep)[Offset(lines, sep, i)..Offset(lines, sep, i) + |lines[i]|] == lines[i]
    {
      JoinLineAt(lines, sep, i);
    }
  }

  lemma {:induction false} JoinLineAt(lines: seq<string>, sep: string, i: nat)
    requires i < |lines|
    ensures Offset(lines, sep, i) + |lines[i]| <= |Join(lines, sep)|
    ensures Join(lines, sep)[Offset(lines, sep, i)..Offset(lines, sep, i) + |lines[i]|] == lines[i]
  {
    if i == 0 {
      assert Offset(lines, sep, 0) == 0;
    } else {
      var a := Offset(lines[1..], sep, i - 1);
      assert Offset(lines, sep, i) == |lines[0]| + |sep| + a;
      assert lines[1..][i - 1] == lines[i];
      JoinLineAt(lines[1..], sep, i - 1);
      JoinShift(lines, sep, a, a + |lines[i]|);
    }
  }

  /** The joined text between lines: the separator comes right before every line but the first. */
  lemma {:induction false} JoinSeparators(lines: seq<string>, sep: string)
    ensures forall i :: 1 <= i < |lines| ==>
      |sep| <= Offset(lines, sep, i) <= |Join(lines, sep)|
      && Join(lines, sep)[Offset(lines, sep, i) - |sep|..Offset(lines, sep, i)] == sep
  {
    forall i | 1 <= i < |lines|
      ensures |sep| <= Offset(lines, sep, i) <= |Join(lines, sep)|
      ensures Join(lines, sep)[Offset(lines, sep, i) - |sep|..Offset(lines, sep, i)] == sep
    {
      JoinSeparatorAt(lines, sep, i);
    }
  }

  lemma {:induction false} JoinSeparatorAt(lines: seq<string>, sep: string, i: nat)
    requires 1 <= i < |lines|
    ensures |sep| <= Offset(lines, sep, i) <= |Join(lines, sep)|
    ensures Join(lines, sep)[Offset(lines, sep, i) - |sep|..Offset(lines, sep, i)] == sep
  {
    var a := Offset(lines[1..], sep, i - 1);
    assert Offset(lines, sep, i) == |lines[0]| + |sep| + a;
    if i > 1 {
      JoinSeparatorAt(lines[1..], sep, i - 1);
      JoinShift(lines, sep, a - |sep|, a);
    }
  }

  /** Past the first line and its separator, the joined text is the joined tail. */
  lemma JoinShift(lines: seq<string>, sep: string, lo: nat, hi: nat)
    requires |lines| >= 2 && lo <= hi <= |Join(lines[1..], sep)|
    ensures |lines[0]| + |sep| + hi <= |Join(lines, sep)|
    ensures Join(lines, sep)[|lines[0]| + |sep| + lo..|lines[0]| + |sep| + hi] == Join(lines[1..], sep)[lo..hi]
  {
    var head := lines[0] + sep;
    assert Join(lines, sep) == head + Join(lines[1..], sep);
    SliceOfAppend(head, Join(lines[1..], sep), |head| + lo, |head| + hi);
  }

  /** A slice of a concatenation that lies in the second part. */
  lemma SliceOfAppend(x: string, y: string, lo: nat, hi: nat)
    requires |x| <= lo <= hi <= |x| + |y|
    ensures (x + y)[lo..hi] == y[lo - |x|..hi - |x|]
  {
  }
}

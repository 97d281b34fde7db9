/** The few JavaScript string and number operations the client code relies
    on, with the edge cases the language gives them: `substring` clamping,
    `parseInt` (leading blanks, a sign, a "0x" prefix, the longest run of
    digits, NaN when there is none), number-to-string for whole numbers,
    `replace` of the first occurrence of a literal, `split` and the ASCII
    part of `toUpperCase`. */
module JsText {
  import opened Common

  /** `s.substring(a, b)`: both ends are clamped into [0, |s|] and swapped
      when the first is larger. */
  function Substring(s: string, a: int, b: int): (r: string)
    ensures |r| <= |s|
    ensures 0 <= a <= b <= |s| ==> r == s[a..b]
    ensures a <= 0 && b <= 0 ==> r == ""
    ensures a <= 0 && b >= |s| ==> r == s
  {
    var start := if a < 0 then 0 else if a > |s| then |s| else a;
    var end := if b < 0 then 0 else if b > |s| then |s| else b;
    if start <= end then s[start..end] else s[end..start]
  }

  // ---------------------------------------------------------------------
  // parseInt

  /** The white-space and line-terminator characters `parseInt` skips
      (section 12.2 and 12.3 of ECMA-262): tab, vertical tab, form feed,
      the byte-order mark, every space separator of Unicode category Zs,
      line feed, carriage return, and the line and paragraph separators. */
  predicate IsJsSpace(c: char) {
    c == ' ' || c == '\t' || c == '\n' || c == '\r' || c == '\U{000B}' || c == '\U{000C}'
    || c == '\U{00A0}' || c == '\U{1680}' || ('\U{2000}' <= c <= '\U{200A}')
    || c == '\U{202F}' || c == '\U{205F}' || c == '\U{3000}'
    || c == '\U{FEFF}' || c == '\U{2028}' || c == '\U{2029}'
  }

  function TrimStart(s: string): (r: string)
    ensures |r| <= |s| && r == s[|s| - |r|..]
    ensures |r| > 0 ==> !IsJsSpace(r[0])
  {
    if |s| > 0 && IsJsSpace(s[0]) then TrimStart(s[1..]) else s
  }

  /** Leading white space does not change what `parseInt` reads. */
  lemma ParseIntSkipsSpace(c: char, t: string)
    requires IsJsSpace(c)
    ensures ParseInt([c] + t) == ParseInt(t)
  {
    assert ([c] + t)[1..] == t;
  }

  /** An ideographic space before the digits is skipped. */
  lemma ParseIntSkipsIdeographicSpace()
    ensures ParseInt("\U{3000} 5") == Some(5)
  {
    assert "\U{3000} 5" == ['\U{3000}'] + " 5";
    assert " 5" == [' '] + "5";
    ParseIntSkipsSpace('\U{3000}', " 5");
    ParseIntSkipsSpace(' ', "5");
    assert IntToString(5) == [DigitChar(5)] == "5";
    ParseIntOfNat(5);
  }

  /** The value of `c` as a digit in base `radix` (10 or 16 here), if it is one. */
  function DigitValue(c: char, radix: nat): (r: Option<nat>)
    ensures r.Some? ==> r.value < radix
  {
    var v: int :=
      if '0' <= c <= '9' then c as int - '0' as int
      else if 'a' <= c <= 'z' then c as int - 'a' as int + 10
      else if 'A' <= c <= 'Z' then c as int - 'A' as int + 10
      else -1;
    if 0 <= v < radix then Some(v) else None
  }

  /** Length of the longest prefix of `s` made of base-`radix` digits. */
  function DigitRun(s: string, radix: nat): (n: nat)
    ensures n <= |s|
    ensures forall i :: 0 <= i < n ==> DigitValue(s[i], radix).Some?
    ensures n < |s| ==> DigitValue(s[n], radix).None?
  {
    if |s| > 0 && DigitValue(s[0], radix).Some? then 1 + DigitRun(s[1..], radix) else 0
  }

  /** The number a run of digits denotes, most significant digit first. */
  function DigitsValue(s: string, radix: nat): nat
    requires forall i :: 0 <= i < |s| ==> DigitValue(s[i], radix).Some?
  {
    if |s| == 0 then 0
    else
      var init := s[..|s| - 1];
      assert forall i :: 0 <= i < |init| ==> init[i] == s[i];
      var high := DigitsValue(init, radix);
      MulNat(high, radix);
      high * radix + DigitValue(s[|s| - 1], radix).value
  }

  lemma MulNat(a: nat, b: nat)
    ensures a * b >= 0
  {
  }

  /** `parseInt(s)` with no radix argument; None stands for NaN. */
  function ParseInt(s: string): Option<int> {
    ParseSigned(TrimStart(s))
  }

  /** The part of `parseInt` after the leading white space: an optional
      sign, then the unsigned part. */
  function ParseSigned(t: string): Option<int> {
    var negative := |t| > 0 && t[0] == '-';
    var u := if |t| > 0 && (t[0] == '-' || t[0] == '+') then t[1..] else t;
    match ParseUnsigned(u)
    case None => None
    case Some(m) => Some(if negative then -(m as int) else m)
  }

  /** The part of `parseInt` after the sign: a "0x" prefix selects base 16,
      then the longest run of digits is read; no digit at all is NaN. */
  function ParseUnsigned(u: string): Option<nat> {
    var hex := |u| >= 2 && u[0] == '0' && (u[1] == 'x' || u[1] == 'X');
    var radix := if hex then 16 else 10;
    var v := if hex then u[2..] else u;
    var n := DigitRun(v, radix);
    if n == 0 then None else Some(DigitsValue(v[..n], radix))
  }

  // ---------------------------------------------------------------------
  // Whole numbers to text (template literals, String(n))

  function DigitChar(d: nat): (c: char)
    requires d < 10
    ensures DigitValue(c, 10) == Some(d)
    ensures '0' <= c <= '9'
  {
    ('0' as int + d) as char
  }

  function NatToString(n: nat): (r: string)
    ensures |r| > 0
    ensures forall i :: 0 <= i < |r| ==> DigitValue(r[i], 10).Some? && '0' <= r[i] <= '9'
    ensures r[0] == '0' ==> n == 0 && |r| == 1
  {
    if n < 10 then [DigitChar(n)] else NatToString(n / 10) + [DigitChar(n % 10)]
  }

  /** How a whole JavaScript number prints: an optional minus sign and its
      decimal digits. */
  function IntToString(n: int): (r: string)
    ensures |r| > 0 && !IsJsSpace(r[0])
  {
    if n < 0 then "-" + NatToString(-n) else NatToString(n)
  }

  /** How `${x}` prints a number that may be NaN. */
  function NumberToString(x: Option<int>): string {
    match x
    case None => "NaN"
    case Some(n) => IntToString(n)
  }

  lemma {:induction false} DigitsValueOfNatToString(n: nat)
    ensures DigitsValue(NatToString(n), 10) == n
    decreases n
  {
    var s := NatToString(n);
    if n >= 10 {
      DigitsValueOfNatToString(n / 10);
      assert s[..|s| - 1] == NatToString(n / 10);
    }
  }

  lemma DigitRunAll(s: string, radix: nat)
    requires forall i :: 0 <= i < |s| ==> DigitValue(s[i], radix).Some?
    ensures DigitRun(s, radix) == |s|
  {
  }

  /** Parsing what a whole number prints gives the number back. */
  lemma ParseIntOfIntToString(n: int)
    ensures ParseInt(IntToString(n)) == Some(n)
  {
    if n < 0 {
      ParseIntOfNegative(-n);
    } else {
      ParseIntOfNat(n);
    }
  }

  lemma ParseIntOfNat(m: nat)
    ensures ParseInt(IntToString(m)) == Some(m)
  {
    var s := NatToString(m);
    assert IntToString(m) == s;
    DigitsParse(s, m);
    DecimalDigitIsPlain(s[0]);
    assert TrimStart(s) == s;
  }

  /** A decimal digit is neither blank nor a sign. */
  lemma DecimalDigitIsPlain(c: char)
    requires '0' <= c <= '9'
    ensures !IsJsSpace(c) && c != '-' && c != '+'
  {
  }

  lemma ParseIntOfNegative(m: nat)
    requires m > 0
    ensures ParseInt(IntToString(-(m as int))) == Some(-(m as int))
  {
    var digits := NatToString(m);
    assert IntToString(-(m as int)) == "-" + digits;
    DigitsParse(digits, m);
    ParseIntOfMinus(digits);
  }

  /** A leading minus sign negates what the rest reads as. */
  lemma ParseIntOfMinus(u: string)
    ensures ParseInt("-" + u) == match ParseUnsigned(u) case None => None case Some(v) => Some(-(v as int))
  {
    var s := "-" + u;
    assert s[0] == '-' && s[1..] == u;
    assert !IsJsSpace('-');
    assert TrimStart(s) == s;
  }

  /** The digits of a whole number read back as the number. */
  lemma DigitsParse(digits: string, m: nat)
    requires digits == NatToString(m)
    ensures ParseUnsigned(digits) == Some(m)
  {
    DigitRunAll(digits, 10);
    DigitsValueOfNatToString(m);
    assert digits[..|digits|] == digits;
  }

  // ---------------------------------------------------------------------
  // replace, split, toUpperCase

  /** Does `pat` occur in `s` at position `i`? */
  predicate OccursAt(s: string, pat: string, i: nat) {
    i + |pat| <= |s| && s[i..i + |pat|] == pat
  }

  /** The first position at or after `from` where `pat` occurs. */
  function IndexOfFrom(s: string, pat: string, from: nat): (r: Option<nat>)
    requires from <= |s|
    ensures r.Some? ==> from <= r.value && OccursAt(s, pat, r.value)
    ensures r.Some? ==> forall j :: from <= j < r.value ==> !OccursAt(s, pat, j)
    ensures r.None? ==> forall j :: from <= j <= |s| ==> !OccursAt(s, pat, j)
    decreases |s| - from
  {
    if OccursAt(s, pat, from) then Some(from)
    else if from == |s| then None
    else IndexOfFrom(s, pat, from + 1)
  }

  /** `s.replace(pat, '')` with a string pattern: the first occurrence of
      `pat`, if any, is cut out. */
  function RemoveFirst(s: string, pat: string): (r: string)
    ensures (forall j :: 0 <= j <= |s| ==> !OccursAt(s, pat, j)) ==> r == s
    ensures pat <= s ==> r == s[|pat|..]
  {
    match IndexOfFrom(s, pat, 0)
    case None => s
    case Some(i) => s[..i] + s[i + |pat|..]
  }

  /** The text before the first `sep`, or all of `s`: `s.split(sep)[0]`. */
  function Before(s: string, sep: char): (r: string)
    ensures r <= s && sep !in r
    ensures sep !in s ==> r == s
  {
    if |s| == 0 || s[0] == sep then "" else [s[0]] + Before(s[1..], sep)
  }

  /** Everything after the first `sep`, or None when `s` has none. */
  function After(s: string, sep: char): (r: Option<string>)
    ensures r.None? <==> sep !in s
  {
    if |s| == 0 then None else if s[0] == sep then Some(s[1..]) else After(s[1..], sep)
  }

  /** `s.split(sep)` read as a pair `[first, second]`: the second field is
      undefined (None) when there is no separator. */
  function FirstTwoFields(s: string, sep: char): (string, Option<string>) {
    (Before(s, sep), match After(s, sep) case None => None case Some(rest) => Some(Before(rest, sep)))
  }

  lemma {:induction false} SplitOfJoined(a: string, sep: char, b: string)
    requires sep !in a
    ensures Before(a + [sep] + b, sep) == a
    ensures After(a + [sep] + b, sep) == Some(b)
  {
    if |a| > 0 {
      assert (a + [sep] + b)[1..] == a[1..] + [sep] + b;
      SplitOfJoined(a[1..], sep, b);
    } else {
      assert (a + [sep] + b)[1..] == b;
    }
  }

  /** Splitting "a-b" on '-' gives back a and b when neither holds a '-'. */
  lemma FieldsOfJoined(a: string, sep: char, b: string)
    requires sep !in a && sep !in b
    ensures FirstTwoFields(a + [sep] + b, sep) == (a, Some(b))
  {
    SplitOfJoined(a, sep, b);
  }

  /** The ASCII part of `toUpperCase` on one character. */
  function UpperAscii(c: char): (r: char)
    ensures 'a' <= c <= 'z' ==> 'A' <= r <= 'Z' && r as int == c as int - 32
    ensures !('a' <= c <= 'z') ==> r == c
  {
    if 'a' <= c <= 'z' then (c as int - 32) as char else c
  }
}

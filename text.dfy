/**
 * String helpers with the JavaScript semantics the dashboard relies on:
 * `includes`/`indexOf`, `toLowerCase`/`toUpperCase` (ASCII letters only),
 * `trim`, first-occurrence `replace`, `parseInt` of a digit string and the
 * decimal rendering of numbers (`String(x)` and `x.toFixed(1)`).
 */
module Text {

  // ---------------------------------------------------------------------
  // Substring search
  // ---------------------------------------------------------------------

  /** `pat` occurs in `s` starting at position `i`. */
  predicate OccursAt(s: string, pat: string, i: nat)
  {
    i + |pat| <= |s| && s[i..i + |pat|] == pat
  }

  lemma OccursShift(s: string, pat: string)
    requires |s| > 0
    ensures forall j: nat :: j >= 1 ==> (OccursAt(s, pat, j) <==> OccursAt(s[1..], pat, j - 1))
  {
    forall j: nat | j >= 1
      ensures OccursAt(s, pat, j) <==> OccursAt(s[1..], pat, j - 1)
    {
      if j + |pat| <= |s| {
        assert s[1..][j - 1..j - 1 + |pat|] == s[j..j + |pat|];
      }
    }
  }

  /** `s.indexOf(pat)`: the first position at which `pat` occurs, or -1. */
  function IndexOf(s: string, pat: string): (r: int)
    ensures -1 <= r <= |s|
    ensures r >= 0 ==> OccursAt(s, pat, r)
    ensures r >= 0 ==> forall j: nat :: j < r ==> !OccursAt(s, pat, j)
    ensures r == -1 ==> forall j: nat :: !OccursAt(s, pat, j)
    decreases |s|
  {
    if OccursAt(s, pat, 0) then 0
    else if |s| == 0 then -1
    else
      var k := IndexOf(s[1..], pat);
      OccursShift(s, pat);
      if k < 0 then -1 else k + 1
  }

  /** `s.startsWith(p)`. */
  predicate StartsWith(s: string, p: string)
  {
    |p| <= |s| && s[..|p|] == p
  }

  lemma PrefixStartsWith(p: string, s: string)
    ensures StartsWith(p + s, p)
  {
    assert (p + s)[..|p|] == p;
  }

  /** `s.includes(pat)`. */
  predicate Contains(s: string, pat: string)
  {
    IndexOf(s, pat) >= 0
  }

  /** Whatever sits between two strings is contained in their join. */
  lemma ContainsInfix(a: string, b: string, c: string)
    ensures Contains(a + (b + c), b)
  {
    assert (a + (b + c))[|a|..|a| + |b|] == b;
    assert OccursAt(a + (b + c), b, |a|);
  }

  /** What a string contains, it still contains behind a prefix. */
  lemma ContainsAfter(a: string, s: string, pat: string)
    requires Contains(s, pat)
    ensures Contains(a + s, pat)
  {
    var k := IndexOf(s, pat);
    assert (a + s)[|a| + k..|a| + k + |pat|] == s[k..k + |pat|];
    assert OccursAt(a + s, pat, |a| + k);
  }

  lemma ContainsIff(s: string, pat: string)
    ensures Contains(s, pat) <==> exists i: nat :: OccursAt(s, pat, i)
  {
  }

  /** A string contains every one of its substrings: a longer pattern found
      in `s` means every piece of that pattern is found in `s` too. */
  lemma {:induction false} ContainsPiece(s: string, pat: string, a: nat, b: nat)
    requires a <= b <= |pat|
    requires Contains(s, pat)
    ensures Contains(s, pat[a..b])
  {
    var i := IndexOf(s, pat);
    assert s[i + a..i + b] == pat[a..b] by {
      assert s[i..i + |pat|] == pat;
    }
    assert OccursAt(s, pat[a..b], i + a);
  }

  /** A pattern with a character that `s` lacks does not occur in `s`. */
  lemma MissingCharNotContained(s: string, pat: string, k: nat)
    requires k < |pat| && pat[k] !in s
    ensures !Contains(s, pat)
  {
  }

  /** `s.replace(pat, rep)` with a string pattern. */
  function ReplaceFirst(s: string, pat: string, rep: string): string
  {
    var i := IndexOf(s, pat);
    if i < 0 then s else s[..i] + rep + s[i + |pat|..]
  }

  /** Only the first occurrence is replaced; without an occurrence the
      string is returned unchanged. */
  lemma ReplaceFirstSpec(s: string, pat: string, rep: string)
    ensures Contains(s, pat) ==>
      exists i: nat :: OccursAt(s, pat, i) && (forall j: nat :: j < i ==> !OccursAt(s, pat, j)) &&
        ReplaceFirst(s, pat, rep) == s[..i] + rep + s[i + |pat|..]
    ensures !Contains(s, pat) ==> ReplaceFirst(s, pat, rep) == s
  {
    if Contains(s, pat) {
      var i := IndexOf(s, pat);
      assert OccursAt(s, pat, i);
    }
  }

  /** Replacing a pattern the string starts with. */
  lemma ReplaceAtStart(s: string, pat: string, rep: string)
    requires |pat| <= |s| && s[..|pat|] == pat
    ensures ReplaceFirst(s, pat, rep) == rep + s[|pat|..]
  {
    assert OccursAt(s, pat, 0);
  }

  /** Replacing a pattern with a character the string lacks changes
      nothing. */
  lemma ReplaceAbsent(s: string, pat: string, rep: string, k: nat)
    requires k < |pat| && pat[k] !in s
    ensures ReplaceFirst(s, pat, rep) == s
  {
    MissingCharNotContained(s, pat, k);
  }

  // ---------------------------------------------------------------------
  // Case conversion (ASCII letters; other characters are kept)
  // ---------------------------------------------------------------------

  predicate IsUpper(c: char) { 'A' <= c <= 'Z' }
  predicate IsLower(c: char) { 'a' <= c <= 'z' }

  function LowerChar(c: char): (r: char)
    ensures !IsUpper(r)
    ensures IsUpper(c) ==> IsLower(r)
    ensures !IsUpper(c) ==> r == c
  {
    if IsUpper(c) then (c as int + 32) as char else c
  }

  function UpperChar(c: char): (r: char)
    ensures !IsLower(r)
    ensures IsLower(c) ==> IsUpper(r)
    ensures !IsLower(c) ==> r == c
  {
    if IsLower(c) then (c as int - 32) as char else c
  }

  /** `s.toLowerCase()`. */
  function ToLower(s: string): (r: string)
    ensures |r| == |s|
    ensures forall i :: 0 <= i < |r| ==> !IsUpper(r[i])
  {
    seq(|s|, i requires 0 <= i < |s| => LowerChar(s[i]))
  }

  /** `s.toUpperCase()`. */
  function ToUpper(s: string): (r: string)
    ensures |r| == |s|
    ensures forall i :: 0 <= i < |r| ==> !IsLower(r[i])
  {
    seq(|s|, i requires 0 <= i < |s| => UpperChar(s[i]))
  }

  /** Lower-casing is idempotent, so comparing lower-cased strings is stable. */
  lemma ToLowerIdempotent(s: string)
    ensures ToLower(ToLower(s)) == ToLower(s)
  {
  }

  // ---------------------------------------------------------------------
  // trim()
  // ---------------------------------------------------------------------

  /** The characters `String.prototype.trim` removes: white space and line
      terminators, including the Unicode space separators. */
  predicate IsJsWhitespace(c: char)
  {
    || c == ' ' || c == '\t' || c == '\n' || c == '\r' || c == '\U{000B}' || c == '\U{000C}'
    || c == '\U{00A0}' || c == '\U{FEFF}' || c == '\U{2028}' || c == '\U{2029}' || c == '\U{1680}'
    || ('\U{2000}' <= c <= '\U{200A}')
    || c == '\U{202F}' || c == '\U{205F}' || c == '\U{3000}'
  }

  /** Every character of `s` is white space (the empty string included). */
  predicate IsBlank(s: string)
  {
    forall i :: 0 <= i < |s| ==> IsJsWhitespace(s[i])
  }

  function TrimStart(s: string): (r: string)
    ensures |r| <= |s| && r == s[|s| - |r|..]
    ensures r != [] ==> !IsJsWhitespace(r[0])
    ensures IsBlank(s[..|s| - |r|])
  {
    if |s| > 0 && IsJsWhitespace(s[0]) then
      var t := TrimStart(s[1..]);
      assert s[1..][..|s| - 1 - |t|] == s[1..|s| - |t|];
      t
    else s
  }

  function TrimEnd(s: string): (r: string)
    ensures |r| <= |s| && r == s[..|r|]
    ensures r != [] ==> !IsJsWhitespace(r[|r| - 1])
    ensures IsBlank(s[|r|..])
  {
    if |s| > 0 && IsJsWhitespace(s[|s| - 1]) then
      var t := TrimEnd(s[..|s| - 1]);
      t
    else s
  }

  /** `s.trim()`. */
  function Trim(s: string): string
  {
    TrimEnd(TrimStart(s))
  }

  /** `!s.trim()` holds exactly when `s` is empty or only white space. */
  lemma TrimEmptyIffBlank(s: string)
    ensures Trim(s) == "" <==> IsBlank(s)
  {
    var t := TrimStart(s);
    if Trim(s) == "" {
      assert IsBlank(t[|Trim(s)|..]);
      assert t[|Trim(s)|..] == t;
      assert s == s[..|s| - |t|] + t;
    } else {
      assert t != [];
      assert !IsJsWhitespace(t[0]);
      assert s[|s| - |t|] == t[0];
    }
  }

  // ---------------------------------------------------------------------
  // Decimal digits, parseInt, number rendering
  // ---------------------------------------------------------------------

  predicate IsDigit(c: char) { '0' <= c <= '9' }

  function DigitChar(d: nat): (c: char)
    requires d < 10
    ensures IsDigit(c) && c as int - '0' as int == d
  {
    ('0' as int + d) as char
  }

  /** Decimal text of a natural number, most significant digit first. */
  function NatText(n: nat): (r: string)
    ensures |r| >= 1
    ensures forall i :: 0 <= i < |r| ==> IsDigit(r[i])
  {
    if n < 10 then [DigitChar(n)] else NatText(n / 10) + [DigitChar(n % 10)]
  }

  /** `parseInt(s)` for a string of decimal digits. */
  function ParseNat(s: string): nat
    requires forall i :: 0 <= i < |s| ==> IsDigit(s[i])
  {
    if s == [] then 0
    else
      assert IsDigit(s[|s| - 1]);
      ParseNat(s[..|s| - 1]) * 10 + (s[|s| - 1] as int - '0' as int)
  }

  /** Rendering a natural number and parsing it back yields the number. */
  lemma {:induction false} ParseNatText(n: nat)
    ensures ParseNat(NatText(n)) == n
  {
    if n >= 10 {
      var s := NatText(n);
      assert s[..|s| - 1] == NatText(n / 10);
      ParseNatText(n / 10);
    }
  }

  /** `String(i)` for an integer. */
  function IntText(i: int): (r: string)
    ensures i >= 0 ==> r == NatText(i)
    ensures i < 0 ==> |r| >= 2 && r[0] == '-' && r[1..] == NatText(-i)
  {
    if i < 0 then "-" + NatText(-i) else NatText(i)
  }

  /** Up to `k` digits of the decimal expansion of a fraction in [0, 1),
      stopping as soon as the expansion terminates. */
  function FractionDigits(f: real, k: nat): (r: string)
    requires 0.0 <= f < 1.0
    ensures |r| <= k
    ensures forall i :: 0 <= i < |r| ==> IsDigit(r[i])
    ensures f == 0.0 ==> r == ""
    decreases k
  {
    if f == 0.0 || k == 0 then ""
    else
      var d := (f * 10.0).Floor;
      [DigitChar(d)] + FractionDigits(f * 10.0 - d as real, k - 1)
  }

  /** The most fractional digits rendered; the default rendering of a JS
      number has at most 17 significant digits. */
  const MaxFractionDigits: nat := 15

  /** `String(x)` for a number written with finitely many decimals (every
      literal of the data tables): the integer part, then a point and the
      fractional digits when there are any. */
  function NumberText(x: real): (r: string)
    ensures x == x.Floor as real ==> r == IntText(x.Floor)
    ensures |r| >= 1 && (r[0] == '-' <==> x < 0.0)
  {
    if x < 0.0 then
      NegatedWhole(x);
      "-" + NonNegativeText(-x)
    else
      var t := NonNegativeText(x);
      assert IsDigit(NatText(x.Floor)[0]);
      t
  }

  /** The negation of a whole number is whole, with the negated floor. */
  lemma NegatedWhole(x: real)
    ensures x == x.Floor as real ==> -x == (-x).Floor as real && (-x).Floor == -x.Floor
  {
    if x == x.Floor as real {
      var k := x.Floor;
      assert -x == (-k) as real;
    }
  }

  function NonNegativeText(x: real): (r: string)
    requires x >= 0.0
    ensures x == x.Floor as real ==> r == NatText(x.Floor)
    ensures |r| >= 1 && r[0] == NatText(x.Floor)[0]
  {
    var n := x.Floor;
    var frac := FractionDigits(x - n as real, MaxFractionDigits);
    if frac == "" then NatText(n) else NatText(n) + "." + frac
  }

  /** The tenths in the magnitude of x, rounded half up: the whole number
      of tenths nearest |x|, the larger one on a tie. */
  function Tenths(x: real): (n: nat)
    ensures var m := if x < 0.0 then -x else x;
      n as real - 0.5 <= 10.0 * m < n as real + 0.5
  {
    var y := (if x < 0.0 then -x else x) * 10.0 + 0.5;
    FloorBounds(y);
    y.Floor
  }

  lemma FloorBounds(y: real)
    ensures y.Floor as real <= y < y.Floor as real + 1.0
  {
  }

  /** A count of tenths written with one digit after the point. */
  function TenthsText(n: nat): (r: string)
    ensures |r| >= 3 && r[|r| - 2] == '.' && IsDigit(r[|r| - 1]) && IsDigit(r[0])
  {
    NatText(n / 10) + "." + [DigitChar(n % 10)]
  }

  /** `x.toFixed(1)`: the magnitude scaled by ten and rounded half up, with
      exactly one digit after the point and a minus sign for negative x. */
  function Fixed1(x: real): (r: string)
    ensures |r| >= 3 && r[|r| - 2] == '.' && IsDigit(r[|r| - 1])
    ensures (r[0] == '-') <==> x < 0.0
  {
    var body := TenthsText(Tenths(x));
    if x < 0.0 then "-" + body else body
  }

  /** Parsing a number's text followed by one more digit gives ten times
      the number plus that digit. */
  lemma ParseNatDigit(q: nat, e: nat)
    requires e < 10
    ensures ParseNat(NatText(q) + [DigitChar(e)]) == 10 * q + e
  {
    var s := NatText(q) + [DigitChar(e)];
    assert s[..|s| - 1] == NatText(q);
    ParseNatText(q);
  }

  /** Reading the text of a count of tenths without its point gives the
      count back. */
  lemma {:induction false} TenthsTextDigits(n: nat)
    ensures var t := TenthsText(n);
      var digits := t[..|t| - 2] + [t[|t| - 1]];
      && (forall i :: 0 <= i < |digits| ==> IsDigit(digits[i]))
      && ParseNat(digits) == n
  {
    var t := TenthsText(n);
    assert t[..|t| - 2] + [t[|t| - 1]] == NatText(n / 10) + [DigitChar(n % 10)];
    ParseNatDigit(n / 10, n % 10);
  }

  /** `toFixed(1)` picks the nearest tenth: its digits, read without the
      sign and the point, count the tenths nearest the magnitude of x, the
      larger one on a tie. */
  lemma {:induction false} Fixed1Nearest(x: real)
    ensures var r := Fixed1(x);
      var body := if x < 0.0 then r[1..] else r;
      var tenths := body[..|body| - 2] + [body[|body| - 1]];
      && (forall i :: 0 <= i < |tenths| ==> IsDigit(tenths[i]))
      && var n := ParseNat(tenths) as real;
         var m := if x < 0.0 then -x else x;
         n - 0.5 <= 10.0 * m < n + 0.5
  {
    var r := Fixed1(x);
    assert (if x < 0.0 then r[1..] else r) == TenthsText(Tenths(x));
    TenthsTextDigits(Tenths(x));
  }

  /** The renderings the risk tool produces for the Florida data: a score
      with one decimal, populations in millions with exactly one decimal
      (a trailing zero kept), and whole counts. */
  lemma {:induction false} RenderedNumbers()
    ensures NumberText(8.9) == "8.9"
    ensures Fixed1(2.7) == "2.7" && Fixed1(3.0) == "3.0"
    ensures IntText(150) == "150"
  {
    assert (8.9).Floor == 8;
    assert FractionDigits(0.9, MaxFractionDigits) == "9" by {
      assert (0.9 * 10.0).Floor == 9;
      assert FractionDigits(0.0, MaxFractionDigits - 1) == "";
    }
    assert (27.0 + 0.5).Floor == 27 && (30.0 + 0.5).Floor == 30;
    assert NatText(2) == "2" && NatText(3) == "3";
    assert NatText(1) == "1" && NatText(15) == "15";
  }
}

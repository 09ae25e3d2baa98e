/** String helpers shared by the Python and JavaScript parts of the model.
    Character classes and case mapping are the ASCII ones. */
module Text {
  import opened Wrappers

  predicate IsUpper(c: char) { 'A' <= c <= 'Z' }
  predicate IsLower(c: char) { 'a' <= c <= 'z' }
  predicate IsDigit(c: char) { '0' <= c <= '9' }
  predicate IsAlnum(c: char) { IsUpper(c) || IsLower(c) || IsDigit(c) }
  /** The `\w` class of a regular expression. */
  predicate IsWordChar(c: char) { IsAlnum(c) || c == '_' }
  /** Python's whitespace: `str.isspace`, which `str.strip`, `float`, `int` and the regex class `\s` use. */
  predicate IsSpace(c: char) {
    ('\t' <= c <= '\r') || ('\U{1C}' <= c <= ' ') || c == '\U{85}' || c == '\U{A0}' || c == '\U{1680}'
    || ('\U{2000}' <= c <= '\U{200A}') || c == '\U{2028}' || c == '\U{2029}' || c == '\U{202F}'
    || c == '\U{205F}' || c == '\U{3000}'
  }

  /** JavaScript's white space and line terminators, which `trim` and `parseFloat` skip. */
  predicate IsJsSpace(c: char) {
    ('\t' <= c <= '\r') || c == ' ' || c == '\U{A0}' || c == '\U{1680}' || ('\U{2000}' <= c <= '\U{200A}')
    || c == '\U{2028}' || c == '\U{2029}' || c == '\U{202F}' || c == '\U{205F}' || c == '\U{3000}'
    || c == '\U{FEFF}'
  }

  function UpperChar(c: char): (r: char)
    ensures IsLower(c) ==> IsUpper(r) && r as int == c as int - 32
    ensures !IsLower(c) ==> r == c
  {
    if IsLower(c) then (c as int - 32) as char else c
  }

  function LowerChar(c: char): (r: char)
    ensures IsUpper(c) ==> IsLower(r) && r as int == c as int + 32
    ensures !IsUpper(c) ==> r == c
  {
    if IsUpper(c) then (c as int + 32) as char else c
  }

  /** Python's `str.upper()` / JavaScript's `toUpperCase()`. */
  function Upper(s: string): (r: string)
    ensures |r| == |s|
    ensures forall i :: 0 <= i < |s| ==> r[i] == UpperChar(s[i])
  {
    seq(|s|, i requires 0 <= i < |s| => UpperChar(s[i]))
  }

  /** Python's `str.lower()`. */
  function Lower(s: string): (r: string)
    ensures |r| == |s|
    ensures forall i :: 0 <= i < |s| ==> r[i] == LowerChar(s[i])
  {
    seq(|s|, i requires 0 <= i < |s| => LowerChar(s[i]))
  }

  /** Two characters are equal under a case-insensitive match. */
  predicate SameLetter(a: char, b: char) { LowerChar(a) == LowerChar(b) }

  /** `p` occurs in `s` starting at index `i`. */
  predicate OccursAt(s: string, p: string, i: int) {
    0 <= i && i + |p| <= |s| && s[i..i + |p|] == p
  }

  /** The index of the first occurrence of `p` in `s` (Python's `str.find`). */
  function IndexOf(s: string, p: string): (r: Option<nat>)
    ensures r.Some? ==> OccursAt(s, p, r.value) && forall j :: 0 <= j < r.value ==> !OccursAt(s, p, j)
    ensures r.None? ==> forall j :: !OccursAt(s, p, j)
    decreases |s|
  {
    if |s| < |p| then None
    else if s[..|p|] == p then Some(0)
    else
      var rest := IndexOf(s[1..], p);
      ShiftOccurrences(s, p);
      match rest
      case None => None
      case Some(i) => Some(i + 1)
  }

  /** An occurrence at `j` in `s`, for `j >= 1`, is an occurrence at `j - 1` in `s[1..]`. */
  lemma ShiftOccurrences(s: string, p: string)
    requires |s| > 0
    ensures !OccursAt(s, p, 0) <==> |s| < |p| || s[..|p|] != p
    ensures forall j {:trigger OccursAt(s, p, j)} :: 1 <= j ==> (OccursAt(s, p, j) <==> OccursAt(s[1..], p, j - 1))
  {
    if |p| <= |s| {
      assert s[0..|p|] == s[..|p|];
    }
    forall j | 1 <= j
      ensures OccursAt(s, p, j) <==> OccursAt(s[1..], p, j - 1)
    {
      if j + |p| <= |s| {
        var t := s[1..];
        assert t[j - 1..j - 1 + |p|] == s[j..j + |p|];
      }
    }
  }

  /** Python's `p in s`. */
  predicate Contains(s: string, p: string) { IndexOf(s, p).Some? }

  /** `s.split(p)[0]`: the text before the first `p`, or all of `s`. */
  function BeforeFirst(s: string, p: string): string {
    match IndexOf(s, p)
    case None => s
    case Some(i) => s[..i]
  }

  /** `s.split(p, 1)[1]`: the text after the first `p`; `None` where Python raises IndexError. */
  function AfterFirst(s: string, p: string): Option<string> {
    match IndexOf(s, p)
    case None => None
    case Some(i) => Some(s[i + |p|..])
  }

  /** `c` is `s` cut at its first `p`: a prefix of `s` at no index of which `p` starts, that is either all of `s`
      or followed by `p`. At most one prefix is such a cut (`FirstCutUnique`). */
  predicate IsFirstCut(s: string, p: string, c: string) {
    && c <= s
    && (forall j :: 0 <= j < |c| ==> !OccursAt(s, p, j))
    && (c == s || OccursAt(s, p, |c|))
  }

  /** `s.split(p)[0]` is the cut of `s` at its first `p`. */
  lemma BeforeFirstIsFirstCut(s: string, p: string)
    ensures IsFirstCut(s, p, BeforeFirst(s, p))
  {
    match IndexOf(s, p)
    case None =>
    case Some(i) =>
      assert |s[..i]| == i;
  }

  /** Two cuts of `s` at its first `p` are the same text. */
  lemma {:induction false} FirstCutUnique(s: string, p: string, c: string, d: string)
    requires IsFirstCut(s, p, c) && IsFirstCut(s, p, d)
    ensures c == d
  {
    if |c| == |d| {
      assert c == s[..|c|] && d == s[..|d|];
    }
  }

  /** When the first character of `p` never appears in `a`, the first `p` of `a + p + rest` is the one after `a`. */
  lemma IndexOfAfterFreePrefix(a: string, p: string, rest: string)
    requires |p| > 0 && p[0] !in a
    ensures IndexOf(a + p + rest, p) == Some(|a|)
  {
    var s := a + p + rest;
    assert s[|a|..|a| + |p|] == p;
    assert OccursAt(s, p, |a|);
    forall j | 0 <= j < |a|
      ensures !OccursAt(s, p, j)
    {
      assert s[j] == a[j];
      if j + |p| <= |s| {
        assert s[j..j + |p|][0] == s[j];
      }
    }
  }

  /** The first occurrence of `p` is not after a position where it occurs. */
  lemma IndexOfAtMost(s: string, p: string, k: nat)
    requires OccursAt(s, p, k)
    ensures IndexOf(s, p).Some? && IndexOf(s, p).value <= k
  {
  }

  /** `s` without the characters of the class `space` at its start. */
  function StripLeft(s: string, space: char -> bool): (r: string)
    ensures |r| <= |s| && r == s[|s| - |r|..]
    ensures r == [] || !space(r[0])
    ensures forall i :: 0 <= i < |s| - |r| ==> space(s[i])
  {
    if s != [] && space(s[0]) then
      var r := StripLeft(s[1..], space);
      assert forall i :: 1 <= i < |s| ==> s[i] == s[1..][i - 1];
      r
    else s
  }

  /** `s` without the characters of the class `space` at its end. */
  function StripRight(s: string, space: char -> bool): (r: string)
    ensures |r| <= |s| && r == s[..|r|]
    ensures r == [] || !space(r[|r| - 1])
    ensures forall i :: |r| <= i < |s| ==> space(s[i])
  {
    if s != [] && space(s[|s| - 1]) then StripRight(s[..|s| - 1], space) else s
  }

  /** Python's `str.strip()` (with `IsSpace`) and JavaScript's `trim()` (with `IsJsSpace`): the slice of `s`
      left once the whitespace at both ends is removed. */
  function Strip(s: string, space: char -> bool): (r: string)
    ensures |r| <= |s|
    ensures r == [] || (!space(r[0]) && !space(r[|r| - 1]))
  {
    StripRight(StripLeft(s, space), space)
  }

  /** What `Strip` removes is whitespace at the two ends, and what it keeps is the slice of `s` between them. */
  lemma StripIsSlice(s: string, space: char -> bool)
    ensures exists i, j ::
      && 0 <= i <= j <= |s| && Strip(s, space) == s[i..j]
      && (forall k :: 0 <= k < i ==> space(s[k]))
      && (forall k :: j <= k < |s| ==> space(s[k]))
  {
    var left := StripLeft(s, space);
    var r := StripRight(left, space);
    var i := |s| - |left|;
    PrefixOfSuffix(s, i, left, r);
    assert forall k :: i + |r| <= k < |s| ==> s[k] == left[k - i];
    assert Strip(s, space) == s[i..i + |r|];
  }

  /** A prefix of a suffix is a slice. */
  lemma PrefixOfSuffix(s: string, i: nat, left: string, r: string)
    requires i <= |s| && left == s[i..] && |r| <= |left| && r == left[..|r|]
    ensures i + |r| <= |s| && r == s[i..i + |r|]
  {
  }

  /** A string without whitespace at its ends is its own strip. */
  lemma StripNoSpace(s: string, space: char -> bool)
    requires s == [] || (!space(s[0]) && !space(s[|s| - 1]))
    ensures Strip(s, space) == s
  {
  }

  predicate AllDigits(s: string) { forall i :: 0 <= i < |s| ==> IsDigit(s[i]) }

  function DigitValue(c: char): nat
    requires IsDigit(c)
  {
    c as int - '0' as int
  }

  /** The number written in decimal by `s`, as Python's `int(s)` reads it. */
  function DigitsValue(s: string): (n: nat)
    requires AllDigits(s)
    ensures |s| > 0 && s[0] != '0' ==> Pow10(|s| - 1) <= n
    ensures n < Pow10(|s|)
    decreases |s|
  {
    if s == [] then 0
    else
      var n := DigitsValue(s[..|s| - 1]) * 10 + DigitValue(s[|s| - 1]);
      assert |s| > 1 ==> s[..|s| - 1][0] == s[0];
      n
  }

  function Pow10(k: nat): (r: nat)
    ensures r >= 1
  {
    if k == 0 then 1 else 10 * Pow10(k - 1)
  }

  /** End of the maximal run of characters from index `i` satisfying `ok`; `RunEndSpec` says so. */
  function RunEnd(s: string, i: nat, ok: char -> bool): (j: nat)
    requires i <= |s|
    ensures i <= j <= |s|
    decreases |s| - i
  {
    if i < |s| && ok(s[i]) then RunEnd(s, i + 1, ok) else i
  }

  /** Every character of the run satisfies `ok`, and the one after it does not. */
  lemma {:induction false} RunEndSpec(s: string, i: nat, ok: char -> bool)
    requires i <= |s|
    ensures var j := RunEnd(s, i, ok);
      && (forall k :: i <= k < j ==> ok(s[k]))
      && (j == |s| || !ok(s[j]))
    decreases |s| - i
  {
    if i < |s| && ok(s[i]) {
      RunEndSpec(s, i + 1, ok);
    }
  }

  /** A run that stops at `e` ends at `e`. */
  lemma {:induction false} RunEndAt(s: string, i: nat, e: nat, ok: char -> bool)
    requires i <= e <= |s|
    requires forall k :: i <= k < e ==> ok(s[k])
    requires e == |s| || !ok(s[e])
    ensures RunEnd(s, i, ok) == e
    decreases e - i
  {
    if i < e {
      RunEndAt(s, i + 1, e, ok);
    }
  }

  /** End of the run of digits from index `i`. */
  function DigitRunEnd(s: string, i: nat): (j: nat)
    requires i <= |s|
    ensures i <= j <= |s| && AllDigits(s[i..j]) && (j == |s| || !IsDigit(s[j]))
  {
    RunEndSpec(s, i, IsDigit);
    RunEnd(s, i, IsDigit)
  }

  /** The exponent `[eE] [+-]? digits` of a decimal literal, if one is written at `i`: its value and where it
      ends. */
  function ExponentAt(s: string, i: nat): (r: Option<(int, nat)>)
    requires i <= |s|
    ensures r.Some? ==> i + 2 <= r.value.1 <= |s|
  {
    if i < |s| && (s[i] == 'e' || s[i] == 'E') then
      var signLen := if i + 1 < |s| && (s[i + 1] == '+' || s[i + 1] == '-') then 1 else 0;
      var digitsEnd := DigitRunEnd(s, i + 1 + signLen);
      var digits := s[i + 1 + signLen..digitsEnd];
      if digits == [] then None
      else Some((if signLen == 1 && s[i + 1] == '-' then -(DigitsValue(digits) as int) else DigitsValue(digits) as int,
                 digitsEnd))
    else None
  }

  /** `m` times ten to the power `e`. */
  function Scale(m: real, e: int): real {
    if e >= 0 then m * Pow10(e) as real else m / Pow10(-e) as real
  }

  /** The mantissa `[+-]? (digits [. digits] | . digits)` at the start of `s`: its value and its length. */
  function Mantissa(s: string): (r: Option<(real, nat)>)
    ensures r.Some? ==> 0 < r.value.1 <= |s|
  {
    var signLen := if s != [] && (s[0] == '+' || s[0] == '-') then 1 else 0;
    var intEnd := DigitRunEnd(s, signLen);
    var hasDot := intEnd < |s| && s[intEnd] == '.';
    var fracEnd := if hasDot then DigitRunEnd(s, intEnd + 1) else intEnd;
    var intDigits := s[signLen..intEnd];
    var fracDigits := if hasDot then s[intEnd + 1..fracEnd] else [];
    if intDigits == [] && fracDigits == [] then None
    else
      var magnitude := DigitsValue(intDigits) as real + DigitsValue(fracDigits) as real / Pow10(|fracDigits|) as real;
      Some((if signLen == 1 && s[0] == '-' then -magnitude else magnitude, fracEnd))
  }

  /** The longest decimal literal at the start of `s`, a mantissa with an optional exponent: its value and its
      length. */
  function DecimalPrefix(s: string): (r: Option<(real, nat)>)
    ensures r.Some? ==> 0 < r.value.1 <= |s|
  {
    match Mantissa(s)
    case None => None
    case Some((m, end)) =>
      match ExponentAt(s, end)
      case Some((e, expEnd)) => Some((Scale(m, e), expEnd))
      case None => Some((m, end))
  }

  /** Python's `float(s)` for a string: the whole stripped text must be a decimal literal. */
  function PyFloat(s: string): (r: Option<real>)
    ensures r.Some? ==> DecimalPrefix(Strip(s, IsSpace)).Some?
  {
    var t := Strip(s, IsSpace);
    match DecimalPrefix(t)
    case Some((v, n)) => if n == |t| then Some(v) else None
    case None => None
  }

  /** Python's `int(s)` for a string: the whole stripped text must be `[+-]? digits`. */
  function PyInt(s: string): (r: Option<int>)
    ensures r.Some? ==> Strip(s, IsSpace) != []
  {
    var t := Strip(s, IsSpace);
    var signLen := if t != [] && (t[0] == '+' || t[0] == '-') then 1 else 0;
    var digits := t[signLen..];
    if digits != [] && AllDigits(digits) then
      Some(if signLen == 1 && t[0] == '-' then -(DigitsValue(digits) as int) else DigitsValue(digits) as int)
    else None
  }

  /** JavaScript's `parseFloat(s)`: the longest decimal literal after leading white space; `None` is NaN (or an
      infinity, which the model has no value for). */
  function JsParseFloat(s: string): (r: Option<real>)
    ensures r.Some? <==> DecimalPrefix(StripLeft(s, IsJsSpace)).Some?
  {
    match DecimalPrefix(StripLeft(s, IsJsSpace))
    case Some((v, _)) => Some(v)
    case None => None
  }

  /** A run of digits followed by neither a digit nor a dot is a mantissa with their value. */
  lemma {:induction false} MantissaOfDigits(s: string, n: nat)
    requires 0 < n <= |s| && AllDigits(s[..n]) && (n == |s| || (!IsDigit(s[n]) && s[n] != '.'))
    ensures Mantissa(s) == Some((DigitsValue(s[..n]) as real, n))
  {
    assert IsDigit(s[..n][0]);
    assert forall k :: 0 <= k < n ==> s[k] == s[..n][k];
    RunEndAt(s, 0, n, IsDigit);
    assert s[0..n] == s[..n];
    assert DigitsValue([]) == 0 && Pow10(0) == 1;
  }

  /** `e` and a run of digits is an exponent with their value. */
  lemma {:induction false} ExponentOfDigits(s: string, n: nat, e: nat)
    requires n + 1 < e <= |s| && s[n] == 'e' && AllDigits(s[n + 1..e]) && (e == |s| || !IsDigit(s[e]))
    ensures ExponentAt(s, n) == Some((DigitsValue(s[n + 1..e]) as int, e))
  {
    assert IsDigit(s[n + 1..e][0]);
    assert forall k :: n + 1 <= k < e ==> s[k] == s[n + 1..e][k - n - 1];
    RunEndAt(s, n + 1, e, IsDigit);
  }

  /** A plain run of digits is read by `float` as the number it writes. */
  lemma {:induction false} PyFloatOfDigits(d: string)
    requires d != [] && AllDigits(d)
    ensures PyFloat(d) == Some(DigitsValue(d) as real)
  {
    StripNoSpace(d, IsSpace);
    assert d[..|d|] == d;
    MantissaOfDigits(d, |d|);
  }

  /** A literal `digits e digits` that ends at `e` (the end of `s` or a character that is not a digit). */
  lemma {:induction false} DecimalPrefixWithExponent(s: string, n: nat, e: nat)
    requires 0 < n && n + 1 < e <= |s| && s[n] == 'e'
    requires AllDigits(s[..n]) && AllDigits(s[n + 1..e]) && (e == |s| || !IsDigit(s[e]))
    ensures DecimalPrefix(s) == Some((Scale(DigitsValue(s[..n]) as real, DigitsValue(s[n + 1..e])), e))
  {
    MantissaOfDigits(s, n);
    ExponentOfDigits(s, n, e);
  }

  /** A text made of digits, `e` and digits, `s[..n] e s[n + 1..]`, is read by `float` as the first digits
      times ten to the power of the second. */
  lemma {:induction false} PyFloatWithExponent(s: string, n: nat)
    requires 0 < n && n + 1 < |s| && s[n] == 'e' && AllDigits(s[..n]) && AllDigits(s[n + 1..])
    ensures PyFloat(s) == Some(Scale(DigitsValue(s[..n]) as real, DigitsValue(s[n + 1..])))
  {
    assert s[0] == s[..n][0] && s[|s| - 1] == s[n + 1..][|s| - n - 2];
    StripNoSpace(s, IsSpace);
    assert s[n + 1..|s|] == s[n + 1..];
    DecimalPrefixWithExponent(s, n, |s|);
  }

  /** JavaScript reads a run of digits that no dot, digit or exponent continues as the number it writes. */
  lemma {:induction false} JsParseFloatOfDigits(s: string, n: nat)
    requires 0 < n <= |s| && AllDigits(s[..n])
    requires n == |s| || (!IsDigit(s[n]) && s[n] != '.' && s[n] != 'e' && s[n] != 'E')
    ensures JsParseFloat(s) == Some(DigitsValue(s[..n]) as real)
  {
    DecimalPrefixOfDigits(s, n);
    assert !IsJsSpace(s[0]) by { assert s[0] == s[..n][0]; }
    assert StripLeft(s, IsJsSpace) == s;
  }

  /** A run of digits that no dot, digit or exponent continues is a whole decimal literal. */
  lemma {:induction false} DecimalPrefixOfDigits(s: string, n: nat)
    requires 0 < n <= |s| && AllDigits(s[..n])
    requires n == |s| || (!IsDigit(s[n]) && s[n] != '.' && s[n] != 'e' && s[n] != 'E')
    ensures DecimalPrefix(s) == Some((DigitsValue(s[..n]) as real, n))
  {
    MantissaOfDigits(s, n);
    assert ExponentAt(s, n) == None;
  }

  /** JavaScript reads the exponent too, `s[..n] e s[n + 1..e]`, and stops at the first character that cannot
      continue the literal. */
  lemma {:induction false} JsParseFloatWithExponent(s: string, n: nat, e: nat)
    requires 0 < n && n + 1 < e <= |s| && s[n] == 'e'
    requires AllDigits(s[..n]) && AllDigits(s[n + 1..e]) && (e == |s| || !IsDigit(s[e]))
    ensures JsParseFloat(s) == Some(Scale(DigitsValue(s[..n]) as real, DigitsValue(s[n + 1..e])))
  {
    assert s[0] == s[..n][0];
    assert StripLeft(s, IsJsSpace) == s;
    DecimalPrefixWithExponent(s, n, e);
  }

}

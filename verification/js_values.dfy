/**
 * The JavaScript value semantics the invoice screens rely on:
 * what `Number(x)` yields, its truthiness, `Number.isFinite`, `*` and `+`,
 * `String.prototype.trim` and `s.split(sep)[0]`.
 *
 * Numbers are mathematical reals extended with NaN and the two infinities;
 * IEEE rounding, overflow and the sign of zero are not modelled.
 */
module JsValues {

  /** The value `Number(x)` produces. */
  datatype JsNumber = NaN | Infinity(negative: bool) | Finite(value: real)

  /** `Number.isFinite(n)`. */
  predicate IsFinite(n: JsNumber) {
    n.Finite?
  }

  /** Truthiness of a number: NaN and zero are falsy. */
  predicate Truthy(n: JsNumber) {
    !n.NaN? && n != Finite(0.0)
  }

  /** `n || 0`: the display-side coercion that turns NaN into 0. */
  function OrZero(n: JsNumber): (r: JsNumber)
    ensures !r.NaN?
    ensures n.NaN? ==> r == Finite(0.0)
    ensures !n.NaN? ==> r == n
  {
    if Truthy(n) then n else Finite(0.0)
  }

  /** The real a finite-or-NaN number stands for once NaN is read as 0. */
  function RealOrZero(n: JsNumber): real {
    if n.Finite? then n.value else 0.0
  }

  /** `a * b`, with NaN and infinities propagated as ECMAScript specifies. */
  function Mul(a: JsNumber, b: JsNumber): (r: JsNumber)
    ensures a.NaN? || b.NaN? ==> r.NaN?
    ensures a.Finite? && b.Finite? ==> r == Finite(a.value * b.value)
    ensures r.NaN? ==> a.NaN? || b.NaN? || a == Finite(0.0) || b == Finite(0.0)
  {
    if a.NaN? || b.NaN? then NaN
    else if a.Finite? && b.Finite? then Finite(a.value * b.value)
    else if a.Infinity? && b.Infinity? then Infinity(a.negative != b.negative)
    else if a.Infinity? then (if b.value == 0.0 then NaN else Infinity(a.negative != (b.value < 0.0)))
    else if a.value == 0.0 then NaN else Infinity(b.negative != (a.value < 0.0))
  }

  /** `a + b` on numbers. */
  function Add(a: JsNumber, b: JsNumber): (r: JsNumber)
    ensures a.NaN? || b.NaN? ==> r.NaN?
    ensures a.Finite? && b.Finite? ==> r == Finite(a.value + b.value)
    ensures r.NaN? ==> a.NaN? || b.NaN? || (a.Infinity? && b.Infinity? && a != b)
  {
    match (a, b)
    case (NaN, _) => NaN
    case (_, NaN) => NaN
    case (Finite(x), Finite(y)) => Finite(x + y)
    case (Infinity(n), Finite(_)) => Infinity(n)
    case (Finite(_), Infinity(n)) => Infinity(n)
    case (Infinity(n), Infinity(m)) => if n == m then Infinity(n) else NaN
  }

  /** The characters `trim` removes: ECMAScript WhiteSpace and LineTerminator. */
  predicate IsJsWhitespace(c: char) {
    c == '\t' || c == '\n' || c == '\U{000B}' || c == '\U{000C}' || c == '\r' || c == ' '
    || c == '\U{00A0}' || c == '\U{1680}' || ('\U{2000}' <= c <= '\U{200A}')
    || c == '\U{2028}' || c == '\U{2029}' || c == '\U{202F}' || c == '\U{205F}'
    || c == '\U{3000}' || c == '\U{FEFF}'
  }

  /** Every character of `s` is whitespace (true of the empty string). */
  predicate IsBlank(s: string) {
    forall i :: 0 <= i < |s| ==> IsJsWhitespace(s[i])
  }

  /** `s.trimStart()`: drops leading whitespace. */
  function TrimStart(s: string): (r: string)
    ensures |r| <= |s|
  {
    if s != [] && IsJsWhitespace(s[0]) then TrimStart(s[1..]) else s
  }

  /** `s.trimEnd()`: drops trailing whitespace. */
  function TrimEnd(s: string): (r: string)
    ensures |r| <= |s|
  {
    if s != [] && IsJsWhitespace(s[|s| - 1]) then TrimEnd(s[..|s| - 1]) else s
  }

  /** `s.trim()`. */
  function Trim(s: string): (r: string)
    ensures |r| <= |s|
  {
    TrimEnd(TrimStart(s))
  }

  /** `trimStart` keeps a suffix, removes only whitespace and stops at a non-whitespace character. */
  lemma {:induction false} TrimStartSpec(s: string)
    ensures var r := TrimStart(s);
      r == s[|s| - |r|..] && IsBlank(s[..|s| - |r|]) && (r != [] ==> !IsJsWhitespace(r[0]))
    decreases |s|
  {
    if s != [] && IsJsWhitespace(s[0]) {
      TrimStartSpec(s[1..]);
      var r := TrimStart(s);
      assert s[..|s| - |r|] == [s[0]] + s[1..][..|s| - 1 - |r|];
    }
  }

  /** `trimEnd` keeps a prefix, removes only whitespace and stops at a non-whitespace character. */
  lemma {:induction false} TrimEndSpec(s: string)
    ensures var r := TrimEnd(s);
      r == s[..|r|] && IsBlank(s[|r|..]) && (r != [] ==> !IsJsWhitespace(r[|r| - 1]))
    decreases |s|
  {
    if s != [] && IsJsWhitespace(s[|s| - 1]) {
      var t := s[..|s| - 1];
      TrimEndSpec(t);
      var r := TrimEnd(s);
      assert s[|r|..] == t[|r|..] + [s[|s| - 1]];
    }
  }

  /** The trimmed string starts and ends with a non-whitespace character. */
  lemma TrimEnds(s: string)
    ensures var r := Trim(s);
      r != [] ==> !IsJsWhitespace(r[0]) && !IsJsWhitespace(r[|r| - 1])
  {
    var t := TrimStart(s);
    TrimStartSpec(s);
    TrimEndSpec(t);
  }

  /** A string trims to nothing exactly when it is all whitespace. */
  lemma {:induction false} TrimEmptyIffBlank(s: string)
    ensures Trim(s) == [] <==> IsBlank(s)
  {
    var t := TrimStart(s);
    TrimStartSpec(s);
    TrimEndSpec(t);
    if Trim(s) == [] {
      assert t == [];
      assert s == s[..|s| - |t|];
    } else {
      var r := Trim(s);
      assert r[0] == t[0] == s[|s| - |t|];
    }
  }

  /** `s.split(sep)[0]` for a one-character separator: the text before its first occurrence. */
  function PrefixBefore(s: string, sep: char): (r: string)
    ensures |r| <= |s| && r == s[..|r|]
    ensures sep !in r
    ensures |r| < |s| ==> s[|r|] == sep
  {
    if s == [] || s[0] == sep then [] else [s[0]] + PrefixBefore(s[1..], sep)
  }
}

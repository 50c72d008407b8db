/** The JavaScript built-ins the record pipeline relies on: numbers and their
    truthiness, `String.prototype.trim`, `String.prototype.split` with a
    one-character separator, `parseInt(_, 10)` and `parseFloat`.
    Arithmetic is exact: the rounding of IEEE-754 doubles is not modelled. */
module JsBuiltins {
  import opened Wrappers

  /** A JavaScript number. */
  datatype Number = Finite(value: real) | Infinite(positive: bool) | NaN {

    /** Truthiness: `0` and `NaN` are falsy, every other number is truthy. */
    predicate IsTruthy() {
      match this
      case Finite(v) => v != 0.0
      case Infinite(_) => true
      case NaN => false
    }

    /** `n <= 0`; every comparison with `NaN` is false. */
    predicate AtMostZero() {
      match this
      case Finite(v) => v <= 0.0
      case Infinite(positive) => !positive
      case NaN => false
    }

    /** Unary minus. */
    function Negated(): Number {
      match this
      case Finite(v) => Finite(-v)
      case Infinite(positive) => Infinite(!positive)
      case NaN => NaN
    }

    /** `n > 0`. */
    predicate IsPositive() {
      match this
      case Finite(v) => v > 0.0
      case Infinite(positive) => positive
      case NaN => false
    }
  }

  /** A finite value that is a whole number of hundredths. */
  predicate IsHundredths(v: real) {
    (v * 100.0).Floor as real == v * 100.0
  }

  // ---------------------------------------------------------------------------
  // Characters

  /** ECMAScript WhiteSpace and LineTerminator code points: what `trim`,
      `parseInt` and `parseFloat` skip. */
  predicate IsWhiteSpace(c: char) {
    c == '\t' || c == '\n' || c == '\U{000B}' || c == '\U{000C}' || c == '\r' ||
    c == ' ' || c == '\U{00A0}' || c == '\U{1680}' ||
    ('\U{2000}' <= c <= '\U{200A}') ||
    c == '\U{2028}' || c == '\U{2029}' || c == '\U{202F}' || c == '\U{205F}' ||
    c == '\U{3000}' || c == '\U{FEFF}'
  }

  /** Regular-expression `\d` (no `u` flag): an ASCII decimal digit. */
  predicate IsDigit(c: char) {
    '0' <= c <= '9'
  }

  /** Regular-expression `\w`: `[A-Za-z0-9_]`. */
  predicate IsWordChar(c: char) {
    ('A' <= c <= 'Z') || ('a' <= c <= 'z') || IsDigit(c) || c == '_'
  }

  predicate AllDigits(s: string) {
    forall i :: 0 <= i < |s| ==> IsDigit(s[i])
  }

  function DigitOf(c: char): nat
    requires IsDigit(c)
  {
    (c as int - '0' as int) as nat
  }

  function DigitChar(d: nat): (c: char)
    requires d < 10
    ensures IsDigit(c) && DigitOf(c) == d
  {
    (d + '0' as int) as char
  }

  // ---------------------------------------------------------------------------
  // Scanning prefixes

  /** The number of white-space characters at the start of `s`. */
  function LeadingWhiteSpace(s: string): (n: nat)
    ensures n <= |s|
    ensures forall i :: 0 <= i < n ==> IsWhiteSpace(s[i])
    ensures n < |s| ==> !IsWhiteSpace(s[n])
  {
    if s != [] && IsWhiteSpace(s[0]) then 1 + LeadingWhiteSpace(s[1..]) else 0
  }

  /** The number of white-space characters at the end of `s`. */
  function TrailingWhiteSpace(s: string): (n: nat)
    ensures n <= |s|
    ensures forall i :: |s| - n <= i < |s| ==> IsWhiteSpace(s[i])
    ensures n < |s| ==> !IsWhiteSpace(s[|s| - 1 - n])
  {
    if s != [] && IsWhiteSpace(s[|s| - 1]) then 1 + TrailingWhiteSpace(s[..|s| - 1]) else 0
  }

  /** The length of the maximal run of digits at the start of `s`. */
  function DigitPrefix(s: string): (n: nat)
    ensures n <= |s|
    ensures forall i :: 0 <= i < n ==> IsDigit(s[i])
    ensures n < |s| ==> !IsDigit(s[n])
  {
    if s != [] && IsDigit(s[0]) then 1 + DigitPrefix(s[1..]) else 0
  }

  // ---------------------------------------------------------------------------
  // trim

  /** `s.trim()`: `s` without its leading and trailing white space. */
  function Trim(s: string): (t: string)
    ensures t == [] <==> forall i :: 0 <= i < |s| ==> IsWhiteSpace(s[i])
    ensures t != [] ==> !IsWhiteSpace(t[0]) && !IsWhiteSpace(t[|t| - 1])
    ensures LeadingWhiteSpace(s) + |t| <= |s| && t == s[LeadingWhiteSpace(s)..LeadingWhiteSpace(s) + |t|]
    ensures forall i :: LeadingWhiteSpace(s) + |t| <= i < |s| ==> IsWhiteSpace(s[i])
  {
    var lead := LeadingWhiteSpace(s);
    var rest := s[lead..];
    assert forall i :: lead <= i < |s| ==> s[i] == rest[i - lead];
    s[lead..|s| - TrailingWhiteSpace(rest)]
  }

  /** `s.trim().length === 0`. */
  predicate IsBlank(s: string) {
    Trim(s) == []
  }

  // ---------------------------------------------------------------------------
  // split

  function Occurrences(s: string, c: char): nat {
    if s == [] then 0 else (if s[0] == c then 1 else 0) + Occurrences(s[1..], c)
  }

  /** `s.split(sep)` for a one-character separator: the pieces between
      separators, one more than there are separators, none containing one. */
  function Split(s: string, sep: char): (parts: seq<string>)
    ensures |parts| == Occurrences(s, sep) + 1
    ensures forall i :: 0 <= i < |parts| ==> sep !in parts[i]
  {
    if s == [] then [""]
    else
      var rest := Split(s[1..], sep);
      if s[0] == sep then [""] + rest else [[s[0]] + rest[0]] + rest[1..]
  }

  /** `parts.join(sep)`. */
  function Join(parts: seq<string>, sep: char): string
    requires |parts| >= 1
  {
    if |parts| == 1 then parts[0] else parts[0] + [sep] + Join(parts[1..], sep)
  }

  /** Splitting loses nothing: joining the pieces gives back the string. */
  lemma {:induction false} JoinSplit(s: string, sep: char)
    ensures Join(Split(s, sep), sep) == s
  {
    if s != [] {
      JoinSplit(s[1..], sep);
      var rest := Split(s[1..], sep);
      if s[0] == sep {
        assert Split(s, sep) == [""] + rest;
        assert ([""] + rest)[1..] == rest;
      } else {
        var parts := Split(s, sep);
        assert parts == [[s[0]] + rest[0]] + rest[1..];
        if |rest| > 1 {
          assert parts[1..] == rest[1..];
          assert Join(rest, sep) == rest[0] + [sep] + Join(rest[1..], sep);
        }
      }
    }
  }

  /** A piece without the separator followed by the separator splits off as
      the first piece. */
  lemma {:induction false} SplitAfterSeparatorFree(a: string, b: string, sep: char)
    requires sep !in a
    ensures Split(a + [sep] + b, sep) == [a] + Split(b, sep)
  {
    if a == [] {
      assert [] + [sep] + b == [sep] + b;
      assert ([sep] + b)[1..] == b;
    } else {
      SplitAfterSeparatorFree(a[1..], b, sep);
      assert (a + [sep] + b)[1..] == a[1..] + [sep] + b;
      assert [a[0]] + a[1..] == a;
    }
  }

  /** A string without the separator is a single piece. */
  lemma {:induction false} SplitSeparatorFree(a: string, sep: char)
    requires sep !in a
    ensures Split(a, sep) == [a]
  {
    if a != [] {
      SplitSeparatorFree(a[1..], sep);
      assert [a[0]] + a[1..] == a;
    }
  }

  // ---------------------------------------------------------------------------
  // Decimal digits

  function Pow10(n: nat): (p: nat)
    ensures p >= 1
  {
    if n == 0 then 1 else 10 * Pow10(n - 1)
  }

  /** The value of a string of decimal digits, most significant first. */
  function DigitsValue(d: string): nat
    requires AllDigits(d)
  {
    if d == [] then 0 else DigitsValue(d[..|d| - 1]) * 10 + DigitOf(d[|d| - 1])
  }

  /** Appending a digit multiplies the value by ten and adds the digit. */
  lemma DigitsValueAppend(d: string, c: char)
    requires AllDigits(d) && IsDigit(c)
    ensures AllDigits(d + [c]) && DigitsValue(d + [c]) == DigitsValue(d) * 10 + DigitOf(c)
  {
    assert (d + [c])[..|d|] == d;
  }

  /** The decimal spelling of `n`, without leading zeros. */
  function NatToString(n: nat): (s: string)
    ensures s != [] && AllDigits(s)
  {
    if n < 10 then [DigitChar(n)] else NatToString(n / 10) + [DigitChar(n % 10)]
  }

  lemma {:induction false} NatToStringValue(n: nat)
    ensures DigitsValue(NatToString(n)) == n
  {
    if n >= 10 {
      NatToStringValue(n / 10);
      var s := NatToString(n);
      assert s[..|s| - 1] == NatToString(n / 10);
    }
  }

  // ---------------------------------------------------------------------------
  // parseInt

  /** The text after leading white space and an optional sign, and whether
      the sign was a minus. */
  function SignedTail(s: string): (string, bool) {
    var t := s[LeadingWhiteSpace(s)..];
    if t != [] && (t[0] == '-' || t[0] == '+') then (t[1..], t[0] == '-') else (t, false)
  }

  /** Text that starts with a digit has no white space or sign to skip. */
  lemma SignedTailOfDigitStart(s: string)
    requires s != [] && IsDigit(s[0])
    ensures SignedTail(s) == (s, false)
    ensures ParseFloat(s) == UnsignedFloat(s)
  {
    assert LeadingWhiteSpace(s) == 0;
    assert s[0..] == s;
  }

  /** `parseInt(s, 10)`: leading white space, an optional sign and the longest
      run of digits after it; `None` stands for `NaN` (no digit there). */
  function ParseInt(s: string): Option<int> {
    var (u, negative) := SignedTail(s);
    var n := DigitPrefix(u);
    if n == 0 then None
    else
      var magnitude: int := DigitsValue(u[..n]);
      Some(if negative then -magnitude else magnitude)
  }

  /** `parseInt` of a string of decimal digits, leading zeros included, is
      its value. */
  lemma ParseIntOfDigits(d: string)
    requires d != [] && AllDigits(d)
    ensures ParseInt(d) == Some(DigitsValue(d))
  {
    assert !IsWhiteSpace(d[0]);
    assert d[0..] == d;
    assert SignedTail(d) == (d, false);
    DigitPrefixAll(d);
    assert d[..|d|] == d;
  }

  /** `parseInt` reads back the decimal spelling of a natural number. */
  lemma ParseIntOfNatString(n: nat)
    ensures ParseInt(NatToString(n)) == Some(n)
  {
    ParseIntOfDigits(NatToString(n));
    NatToStringValue(n);
  }

  // ---------------------------------------------------------------------------
  // parseFloat

  /** `m * 10^e` as an exact real. */
  function ScaleByPowerOfTen(m: int, e: int): real {
    if e >= 0 then (m * Pow10(e)) as real else m as real / Pow10(-e) as real
  }

  /** The exponent an optional `e`/`E` part at the start of `s` denotes; 0
      when there is none (an `e` not followed by digits is not part of the
      number). */
  function ExponentPart(s: string): int {
    if |s| >= 2 && (s[0] == 'e' || s[0] == 'E') then
      var t := s[1..];
      var u := if t[0] == '-' || t[0] == '+' then t[1..] else t;
      var n := DigitPrefix(u);
      if n == 0 then 0
      else if t[0] == '-' then -(DigitsValue(u[..n]) as int)
      else DigitsValue(u[..n])
    else 0
  }

  /** `parseFloat(s)`: leading white space, an optional sign, then either
      `Infinity` or the longest prefix of the form `digits [. digits]
      [exponent]` or `. digits [exponent]`; `NaN` when there is none. */
  function ParseFloat(s: string): Number {
    var (u, negative) := SignedTail(s);
    var n := UnsignedFloat(u);
    if negative then n.Negated() else n
  }

  /** The number an unsigned decimal literal at the start of `u` denotes. */
  function UnsignedFloat(u: string): Number {
    if |u| >= 8 && u[..8] == "Infinity" then Infinite(true)
    else
      var intPart := u[..DigitPrefix(u)];
      var rest := u[|intPart|..];
      var hasPoint := rest != [] && rest[0] == '.';
      var fracPart := if hasPoint then rest[1..][..DigitPrefix(rest[1..])] else "";
      if intPart == [] && fracPart == [] then NaN
      else
        var exponentText := if hasPoint then rest[1 + |fracPart|..] else rest;
        Finite(DecimalValue(intPart, fracPart, ExponentPart(exponentText)))
  }

  /** The value of `intPart.fracPart` times `10^exponent`. */
  function DecimalValue(intPart: string, fracPart: string, exponent: int): real
    requires AllDigits(intPart) && AllDigits(fracPart)
  {
    ScaleByPowerOfTen(DigitsValue(intPart) * Pow10(|fracPart|) + DigitsValue(fracPart), exponent - |fracPart|)
  }

  /** `parseFloat` of a plain run of digits is its integer value. */
  lemma ParseFloatOfDigits(d: string)
    requires d != [] && AllDigits(d)
    ensures ParseFloat(d) == Finite(DigitsValue(d) as real)
  {
    assert !IsWhiteSpace(d[0]);
    assert SignedTail(d) == (d, false);
    assert |d| >= 8 ==> d[..8][0] == d[0];
    DigitPrefixAll(d);
    assert d[..|d|] == d;
    assert d[|d|..] == [];
  }

  /** `parseFloat` of `a.b`, with `a` and `b` digit strings, is `a + b / 10^|b|`. */
  lemma ParseFloatOfDecimal(a: string, b: string)
    requires a != [] && AllDigits(a) && AllDigits(b)
    ensures ParseFloat(a + "." + b) == Finite(FixedPoint(DigitsValue(a), DigitsValue(b), |b|))
  {
    var s := a + "." + b;
    assert s[0] == a[0];
    SignedTailOfDigitStart(s);
    UnsignedFloatOfDecimal(a, b);
    DecimalValueWithoutExponent(a, b);
  }

  lemma DecimalValueWithoutExponent(a: string, b: string)
    requires AllDigits(a) && AllDigits(b)
    ensures DecimalValue(a, b, 0) == FixedPoint(DigitsValue(a), DigitsValue(b), |b|)
  {
    DecimalScale(DigitsValue(a), DigitsValue(b), |b|);
  }

  lemma UnsignedFloatOfDecimal(a: string, b: string)
    requires a != [] && AllDigits(a) && AllDigits(b)
    ensures UnsignedFloat(a + "." + b) == Finite(DecimalValue(a, b, 0))
  {
    var s := a + "." + b;
    assert |s| >= 8 ==> s[..8][0] == s[0];
    assert DigitPrefix(s) == |a| by {
      assert forall i :: 0 <= i < |a| ==> s[i] == a[i];
      DigitPrefixOfDigits(s, |a|);
    }
    assert s[..|a|] == a;
    var rest := s[|a|..];
    assert rest == "." + b && rest[1..] == b;
    DigitPrefixAll(b);
    assert b[..|b|] == b;
    assert rest[1 + |b|..] == [];
  }

  /** `x + y / 10^n`: the value of the decimal `x.y` when `y` has `n` digits. */
  function FixedPoint(x: int, y: int, n: nat): real {
    x as real + y as real / Pow10(n) as real
  }

  /** `(x * 10^n + y) / 10^n == x + y / 10^n`. */
  lemma DecimalScale(x: int, y: int, n: nat)
    ensures ScaleByPowerOfTen(x * Pow10(n) + y, -(n as int)) == FixedPoint(x, y, n)
  {
    var q := Pow10(n);
    var p := q as real;
    CastProduct(x, q);
    if n == 0 {
      assert q == 1;
    } else {
      assert ScaleByPowerOfTen(x * q + y, -(n as int)) == (x * q + y) as real / p;
      assert (x * q + y) as real == x as real * p + y as real;
      DivideSum(x as real, y as real, p);
    }
  }

  lemma CastProduct(x: int, q: int)
    ensures (x * q) as real == x as real * q as real
  {
  }

  lemma DivideSum(x: real, y: real, p: real)
    requires p > 0.0
    ensures (x * p + y) / p == x + y / p
  {
  }

  lemma {:induction false} DigitPrefixAll(d: string)
    requires AllDigits(d)
    ensures DigitPrefix(d) == |d|
  {
    if d != [] {
      DigitPrefixAll(d[1..]);
    }
  }

  /** A maximal digit run of length `n` at the start of `s` is the digit prefix. */
  lemma {:induction false} DigitPrefixOfDigits(s: string, n: nat)
    requires n < |s| && !IsDigit(s[n])
    requires forall i :: 0 <= i < n ==> IsDigit(s[i])
    ensures DigitPrefix(s) == n
  {
    if n > 0 {
      DigitPrefixOfDigits(s[1..], n - 1);
    }
  }

  /** `parseFloat` yields a finite number only when its argument holds a digit. */
  lemma ParseFloatNeedsDigit(s: string)
    requires ParseFloat(s).Finite?
    ensures exists i :: 0 <= i < |s| && IsDigit(s[i])
  {
    var (u, negative) := SignedTail(s);
    var lead := LeadingWhiteSpace(s);
    var t := s[lead..];
    var off := if t != [] && (t[0] == '-' || t[0] == '+') then lead + 1 else lead;
    assert u == s[off..];
    var intLen := DigitPrefix(u);
    if intLen > 0 {
      assert IsDigit(s[off]);
    } else {
      assert u[0] == '.';
      var f := u[1..];
      assert DigitPrefix(f) > 0;
      assert IsDigit(s[off + 1]);
    }
  }
}

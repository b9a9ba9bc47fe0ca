/** The two JavaScript string-to-number conversions the finance tracker relies
    on: `parseFloat`, which reads the longest decimal prefix after leading
    white space, and `Number` (used by the comparison `x > 0`), which needs the
    whole trimmed string to be a decimal literal and reads "" as 0. Exponents,
    `Infinity` and hexadecimal, binary and octal literals are not read: here
    `ParseFloat` stops at an `e` and returns the mantissa ("1e3" reads as 1, not
    1000), and `NumberOf` of any such text is NaN. */
module JsNumber {
  import opened Common

  predicate IsDigit(c: char)
  {
    '0' <= c <= '9'
  }

  function DigitValue(c: char): (v: nat)
    requires IsDigit(c)
    ensures v < 10
  {
    (c as int) - ('0' as int)
  }

  function DigitChar(v: nat): (c: char)
    requires v < 10
    ensures IsDigit(c) && DigitValue(c) == v
  {
    ('0' as int + v) as char
  }

  /** Number of digits at the start of `s`. */
  function LeadingDigits(s: string): (k: nat)
    ensures k <= |s|
    ensures forall i :: 0 <= i < k ==> IsDigit(s[i])
    ensures k < |s| ==> !IsDigit(s[k])
  {
    if s == [] || !IsDigit(s[0]) then 0 else 1 + LeadingDigits(s[1..])
  }

  predicate AllDigits(s: string)
  {
    forall i :: 0 <= i < |s| ==> IsDigit(s[i])
  }

  /** The value of a run of decimal digits. */
  function NatOf(s: string): nat
    requires AllDigits(s)
  {
    if s == [] then 0 else 10 * NatOf(s[..|s| - 1]) + DigitValue(s[|s| - 1])
  }

  function Pow10(n: nat): (p: nat)
    ensures p >= 1
  {
    if n == 0 then 1 else 10 * Pow10(n - 1)
  }

  /** 1 when `s` starts with a sign character, else 0. */
  function SignLength(s: string): (a: nat)
    ensures a <= |s|
  {
    if |s| > 0 && (s[0] == '+' || s[0] == '-') then 1 else 0
  }

  /** End of the integer digits that follow the optional sign. */
  function IntEnd(s: string): (b: nat)
    ensures SignLength(s) <= b <= |s|
    ensures forall i :: SignLength(s) <= i < b ==> IsDigit(s[i])
    ensures b < |s| ==> !IsDigit(s[b])
  {
    var a := SignLength(s);
    var k := LeadingDigits(s[a..]);
    assert forall i :: a <= i < a + k ==> s[i] == s[a..][i - a];
    a + k
  }

  /** Start of the fraction digits: just after the '.', if one follows the integer digits. */
  function FracStart(s: string): (f: nat)
    ensures IntEnd(s) <= f <= |s|
    ensures f == IntEnd(s) + 1 <==> IntEnd(s) < |s| && s[IntEnd(s)] == '.'
    ensures f == IntEnd(s) <==> !(IntEnd(s) < |s| && s[IntEnd(s)] == '.')
  {
    var b := IntEnd(s);
    if b < |s| && s[b] == '.' then b + 1 else b
  }

  /** End of the fraction digits. */
  function FracEnd(s: string): (c: nat)
    ensures FracStart(s) <= c <= |s|
    ensures forall i :: FracStart(s) <= i < c ==> IsDigit(s[i])
    ensures c < |s| ==> !IsDigit(s[c])
  {
    var f := FracStart(s);
    var k := LeadingDigits(s[f..]);
    assert forall i :: f <= i < f + k ==> s[i] == s[f..][i - f];
    f + k
  }

  /** The value of the digits `s[i..j]`. */
  function DigitsValue(s: string, i: nat, j: nat): nat
    requires i <= j <= |s|
    requires forall k :: i <= k < j ==> IsDigit(s[k])
  {
    assert forall k :: 0 <= k < j - i ==> s[i..j][k] == s[i + k];
    NatOf(s[i..j])
  }

  /** A decimal literal read from the front of a string: its value and how many
      characters it took. */
  datatype Scan = Scan(value: real, length: nat)

  /** Whether the sign is followed by at least one integer or fraction digit. */
  predicate HasDigits(s: string)
  {
    IntEnd(s) > SignLength(s) || FracEnd(s) > FracStart(s)
  }

  /** The value of the literal `s[..FracEnd(s)]`. */
  function LiteralValue(s: string): real
  {
    var a, b, f, c := SignLength(s), IntEnd(s), FracStart(s), FracEnd(s);
    var magnitude := DigitsValue(s, a, b) as real + DigitsValue(s, f, c) as real / Pow10(c - f) as real;
    if a == 1 && s[0] == '-' then -magnitude else magnitude
  }

  /** The longest prefix of `s` of the form sign? digits* ('.' digits*)? that
      holds at least one digit. */
  function DecimalPrefix(s: string): (r: Option<Scan>)
    ensures r.None? <==> !HasDigits(s)
    ensures r.Some? ==> r.value.length == FracEnd(s) && 0 < r.value.length <= |s|
    ensures r.Some? && s[0] != '-' ==> r.value.value >= 0.0
  {
    if HasDigits(s) then Some(Scan(LiteralValue(s), FracEnd(s))) else None
  }

  /** `DecimalPrefix` fails exactly when the sign is followed neither by a digit
      nor by a '.' and a digit. */
  lemma DecimalPrefixNoneIff(s: string)
    ensures DecimalPrefix(s).None? <==>
              var a := SignLength(s);
              !(a < |s| && IsDigit(s[a])) && !(a + 1 < |s| && s[a] == '.' && IsDigit(s[a + 1]))
  {
  }

  /** `parseFloat(s)`; `None` is NaN. */
  function ParseFloat(s: string): Option<real>
  {
    match DecimalPrefix(s[LeadingSpaces(s)..])
    case Some(scan) => Some(scan.value)
    case None => None
  }

  /** `Number(s)`; `None` is NaN. */
  function NumberOf(s: string): Option<real>
  {
    var t := Trim(s);
    if t == [] then Some(0.0)
    else match DecimalPrefix(t)
      case Some(scan) => if scan.length == |t| then Some(scan.value) else None
      case None => None
  }

  /** A string without any digit is NaN for `parseFloat`. */
  lemma NoDigitsIsNaN(s: string)
    requires forall i :: 0 <= i < |s| ==> !IsDigit(s[i])
    ensures ParseFloat(s) == None
  {
    var u := s[LeadingSpaces(s)..];
    var a := SignLength(u);
    if a < |u| {
      assert u[a] == s[LeadingSpaces(s) + a];
    }
    if a + 1 < |u| {
      assert u[a + 1] == s[LeadingSpaces(s) + a + 1];
    }
  }

  lemma {:induction false} LeadingDigitsAppend(x: string, w: string)
    requires LeadingDigits(x) < |x| || w == [] || !IsDigit(w[0])
    ensures LeadingDigits(x + w) == LeadingDigits(x)
  {
    if x != [] && IsDigit(x[0]) {
      assert (x + w)[1..] == x[1..] + w;
      LeadingDigitsAppend(x[1..], w);
    }
  }

  lemma IntEndBeforeSpace(t: string, w: string)
    requires t != []
    requires w == [] || !IsDigit(w[0])
    ensures SignLength(t + w) == SignLength(t)
    ensures IntEnd(t + w) == IntEnd(t)
  {
    var a := SignLength(t);
    assert (t + w)[0] == t[0];
    assert (t + w)[a..] == t[a..] + w;
    LeadingDigitsAppend(t[a..], w);
  }

  lemma FracEndBeforeSpace(t: string, w: string)
    requires t != [] && FracEnd(t) == |t|
    requires w == [] || (!IsDigit(w[0]) && w[0] != '.')
    ensures FracStart(t + w) == FracStart(t)
    ensures FracEnd(t + w) == FracEnd(t)
  {
    IntEndBeforeSpace(t, w);
    var b := IntEnd(t);
    if b < |t| {
      assert (t + w)[b] == t[b];
    }
    var f := FracStart(t);
    assert (t + w)[f..] == t[f..] + w;
    LeadingDigitsAppend(t[f..], w);
  }

  /** A decimal literal followed by white space reads the same as without it. */
  lemma DecimalPrefixBeforeSpace(t: string, w: string)
    requires DecimalPrefix(t).Some? && DecimalPrefix(t).value.length == |t|
    requires w == [] || IsSpace(w[0])
    ensures DecimalPrefix(t + w) == DecimalPrefix(t)
  {
    assert w != [] ==> !IsDigit(w[0]) && w[0] != '.';
    IntEndBeforeSpace(t, w);
    FracEndBeforeSpace(t, w);
    LiteralBeforeSpace(t, w);
  }

  lemma LiteralBeforeSpace(t: string, w: string)
    requires t != []
    requires SignLength(t + w) == SignLength(t) && IntEnd(t + w) == IntEnd(t)
    requires FracStart(t + w) == FracStart(t) && FracEnd(t + w) == FracEnd(t)
    ensures LiteralValue(t + w) == LiteralValue(t)
  {
    var s := t + w;
    var a, b, f, c := SignLength(t), IntEnd(t), FracStart(t), FracEnd(t);
    assert s[a..b] == t[a..b];
    assert s[f..c] == t[f..c];
    assert s[0] == t[0];
  }

  /** Whenever `Number(s)` is a non-zero number, `parseFloat(s)` is the same number. */
  lemma NumberAgreesWithParseFloat(s: string)
    requires NumberOf(s).Some? && NumberOf(s).value != 0.0
    ensures ParseFloat(s) == NumberOf(s)
  {
    var k := LeadingSpaces(s);
    var u := s[k..];
    var m := TrailingStart(u);
    var t := u[..m];
    assert t == Trim(s);
    assert u == t + u[m..];
    DecimalPrefixBeforeSpace(t, u[m..]);
  }

  /** The decimal rendering of a natural number (`String(n)`). */
  function NatString(n: nat): (s: string)
    ensures s != [] && AllDigits(s)
  {
    if n < 10 then [DigitChar(n)] else NatString(n / 10) + [DigitChar(n % 10)]
  }

  lemma {:induction false} NatOfNatString(n: nat)
    ensures NatOf(NatString(n)) == n
  {
    if n >= 10 {
      NatOfNatString(n / 10);
      var s := NatString(n);
      assert s[..|s| - 1] == NatString(n / 10);
    }
  }

  lemma AllDigitsLeading(s: string)
    requires AllDigits(s)
    ensures LeadingDigits(s) == |s|
  {
  }

  lemma NoSpaceEndsTrim(s: string)
    requires s != [] && !IsSpace(s[0]) && !IsSpace(s[|s| - 1])
    ensures LeadingSpaces(s) == 0 && s[LeadingSpaces(s)..] == s
    ensures Trim(s) == s
  {
    assert TrailingStart(s) == |s|;
    assert s[0..] == s && s[..|s|] == s;
  }

  /** A non-empty run of digits is a literal that spans the whole string. */
  lemma DigitsLiteral(s: string)
    requires s != [] && AllDigits(s)
    ensures DecimalPrefix(s) == Some(Scan(NatOf(s) as real, |s|))
  {
    assert SignLength(s) == 0;
    assert s[0..] == s;
    AllDigitsLeading(s);
    assert IntEnd(s) == |s|;
    assert FracStart(s) == |s|;
    assert s[|s|..] == [];
    assert FracEnd(s) == |s|;
    assert s[0..|s|] == s;
    assert s[|s|..|s|] == [];
    assert LiteralValue(s) == NatOf(s) as real;
  }

  /** Both conversions read a rendered natural number back as that number. */
  lemma ParseNatString(n: nat)
    ensures ParseFloat(NatString(n)) == Some(n as real)
    ensures NumberOf(NatString(n)) == Some(n as real)
  {
    var s := NatString(n);
    NoSpaceEndsTrim(s);
    DigitsLiteral(s);
    NatOfNatString(n);
  }
}

/** JavaScript numbers as the ingestion script uses them. Values are exact
    rationals (`real`); `NaN` is kept apart because `parseFloat` can produce it
    and the script tests for it (`isNaN`, or falsiness in `x || fallback`).
    Only decimal literals made of digits and points are ever parsed here, so
    signs, exponents and `Infinity` do not arise. */
module Numbers {
  import opened Options
  import opened Text

  /** A number produced by `parseFloat`: NaN, or an exact value. */
  datatype JsNum = NaN | Num(value: real)

  /** JavaScript truthiness of a number: NaN and 0 are falsy. */
  predicate Truthy(n: JsNum) {
    n.Num? && n.value != 0.0
  }

  /** `x || fallback` where `x` is a possibly-null parsed number: null, NaN and
      0 all give the fallback. */
  function OrElse(x: Option<JsNum>, fallback: real): real {
    if x.Some? && Truthy(x.value) then x.value.value else fallback
  }

  /** `x || undefined` over a possibly-null parsed number. */
  function OrUndefined(x: Option<JsNum>): Option<real> {
    if x.Some? && Truthy(x.value) then Some(x.value.value) else None
  }

  /** `x || fallback` where `x` is a possibly-null number that is never NaN
      (what `parsePrice` and `extractYear` return): null and 0 give the
      fallback. */
  function ValueOr(x: Option<real>, fallback: real): real {
    if x.Some? && x.value != 0.0 then x.value else fallback
  }

  /** `Math.min(a, b)`. */
  function Min(a: nat, b: nat): nat {
    if a < b then a else b
  }

  function DigitValue(c: char): nat
    requires IsDigit(c)
  {
    c as int - '0' as int
  }

  /** The value of a string of decimal digits (the empty string is 0). */
  function DigitsValue(ds: string): nat
    requires AllDigits(ds)
    decreases |ds|
  {
    if |ds| == 0 then 0 else DigitsValue(ds[..|ds| - 1]) * 10 + DigitValue(ds[|ds| - 1])
  }

  function Pow10(k: nat): (r: nat)
    ensures r > 0
  {
    if k == 0 then 1 else 10 * Pow10(k - 1)
  }

  /** The value of the decimal literal `intDigits.fracDigits`. */
  function DecimalValue(intDigits: string, fracDigits: string): real
    requires AllDigits(intDigits) && AllDigits(fracDigits)
  {
    DigitsValue(intDigits) as real + DigitsValue(fracDigits) as real / Pow10(|fracDigits|) as real
  }

  /** Fraction digits that are all zero add nothing. */
  lemma ZeroFraction(intDigits: string, fracDigits: string)
    requires AllDigits(intDigits) && AllDigits(fracDigits) && DigitsValue(fracDigits) == 0
    ensures DecimalValue(intDigits, fracDigits) == DigitsValue(intDigits) as real
  {
  }

  /** Number of consecutive digits of `s` from index `i` on. */
  function DigitRun(s: string, i: nat): (n: nat)
    requires i <= |s|
    ensures i + n <= |s|
    ensures forall j :: i <= j < i + n ==> IsDigit(s[j])
    ensures i + n < |s| ==> !IsDigit(s[i + n])
    ensures n > 0 <==> i < |s| && IsDigit(s[i])
    decreases |s| - i
  {
    if i < |s| && IsDigit(s[i]) then 1 + DigitRun(s, i + 1) else 0
  }

  /** The run of digits that starts at `i`. */
  function DigitRunText(s: string, i: nat): (t: string)
    requires i <= |s|
    ensures AllDigits(t)
  {
    s[i..i + DigitRun(s, i)]
  }

  /** A digit run is as long as the digits actually there. */
  lemma {:induction false} DigitRunIs(s: string, i: nat, n: nat)
    requires i + n <= |s|
    requires forall j :: i <= j < i + n ==> IsDigit(s[j])
    requires i + n < |s| ==> !IsDigit(s[i + n])
    ensures DigitRun(s, i) == n
    decreases n
  {
    if n > 0 {
      DigitRunIs(s, i + 1, n - 1);
    }
  }

  predicate IsDecimalChar(c: char) {
    IsDigit(c) || c == '.'
  }

  /** Every character of `s` is a digit or a point. */
  predicate DecimalChars(s: string) {
    forall i :: 0 <= i < |s| ==> IsDecimalChar(s[i])
  }

  /** `s` opens with a decimal literal: a digit, or a point followed by a digit. */
  predicate StartsNumeric(s: string) {
    |s| > 0 && (IsDigit(s[0]) || (s[0] == '.' && |s| > 1 && IsDigit(s[1])))
  }

  /** The fraction digits that follow the integer digits `s[..a]`, if a point comes next. */
  function FractionAfter(s: string, a: nat): (f: string)
    requires a <= |s|
    ensures AllDigits(f)
  {
    if a < |s| && s[a] == '.' then s[a + 1..a + 1 + DigitRun(s, a + 1)] else ""
  }

  /** `parseFloat(s)` for a string of digits and points: the value of the
      longest prefix of the form `digits [. digits]`, NaN when that prefix holds
      no digit at all. Whatever follows the prefix (a second point, say) is
      ignored. */
  function ParseDecimal(s: string): (r: JsNum)
    requires DecimalChars(s)
    ensures r.NaN? <==> !StartsNumeric(s)
    ensures r.Num? ==> r.value >= 0.0
  {
    var a := DigitRun(s, 0);
    var frac := FractionAfter(s, a);
    assert a == 0 ==> (|frac| > 0 <==> |s| > 1 && s[0] == '.' && IsDigit(s[1]));
    if a + |frac| == 0 then NaN else Num(DecimalValue(s[..a], frac))
  }

  /** The literal `ip.fp` followed by anything that starts with a point parses
      to exactly its own value. */
  lemma ParseDecimalLiteral(ip: string, fp: string, rest: string)
    requires |ip| > 0 && AllDigits(ip) && AllDigits(fp)
    requires DecimalChars(rest) && (|rest| > 0 ==> rest[0] == '.')
    ensures DecimalChars(ip + "." + fp + rest)
    ensures ParseDecimal(ip + "." + fp + rest) == Num(DecimalValue(ip, fp))
  {
    var s := ip + "." + fp + rest;
    var n := |ip| + 1 + |fp|;
    assert s[..|ip|] == ip && s[|ip|] == '.' && s[|ip| + 1..n] == fp && s[n..] == rest;
    assert DecimalChars(s) by {
      forall j | 0 <= j < |s| ensures IsDecimalChar(s[j]) {
        if j < |ip| {
          assert s[j] == ip[j];
        } else if j == |ip| {
        } else if j < n {
          assert s[j] == fp[j - |ip| - 1];
        } else {
          assert s[j] == rest[j - n];
        }
      }
    }
    forall j | 0 <= j < |ip| ensures IsDigit(s[j]) {
      assert s[j] == ip[j];
    }
    forall j | |ip| + 1 <= j < n ensures IsDigit(s[j]) {
      assert s[j] == fp[j - |ip| - 1];
    }
    assert n < |s| ==> s[n] == rest[0];
    DigitRunIs(s, 0, |ip|);
    DigitRunIs(s, |ip| + 1, |fp|);
    assert FractionAfter(s, |ip|) == fp;
  }

  /** A run of digits followed by nothing parses to its own value. */
  lemma ParseDigits(ds: string)
    requires |ds| > 0 && AllDigits(ds)
    ensures DecimalChars(ds)
    ensures ParseDecimal(ds) == Num(DigitsValue(ds) as real)
  {
    DigitRunIs(ds, 0, |ds|);
    assert FractionAfter(ds, |ds|) == "";
    assert ds[..|ds|] == ds;
    ZeroFraction(ds, "");
  }

  // ---------------------------------------------------------------------------
  // Rendering numbers as text
  // ---------------------------------------------------------------------------

  function DigitChar(d: nat): (c: char)
    requires d < 10
    ensures IsDigit(c) && DigitValue(c) == d
  {
    ('0' as int + d) as char
  }

  /** The decimal digits of `n`, without leading zeros. */
  function NatToString(n: nat): (r: string)
    ensures |r| > 0 && AllDigits(r)
    ensures DigitsValue(r) == n
    ensures |r| > 1 ==> r[0] != '0'
  {
    if n < 10 then [DigitChar(n)]
    else
      var r := NatToString(n / 10) + [DigitChar(n % 10)];
      assert r[..|r| - 1] == NatToString(n / 10);
      r
  }

  /** `${n}` for an integer `n`. */
  function IntToString(n: int): (r: string)
    ensures |r| > 0
    ensures n >= 0 ==> AllDigits(r) && DigitsValue(r) == n
    ensures n < 0 ==> r[0] == '-' && AllDigits(r[1..]) && DigitsValue(r[1..]) == -n
  {
    if n < 0 then "-" + NatToString(-n) else NatToString(n)
  }

  predicate IsInteger(v: real) {
    v.Floor as real == v
  }

  /** `m` times `10^k`. */
  function Shift(m: real, k: nat): real {
    m * Pow10(k) as real
  }

  /** Number of fraction digits `m` needs, searching from `k` up to 20. */
  function FractionDigits(m: real, k: nat): (n: nat)
    requires k <= 20
    ensures k <= n <= 20
    decreases 20 - k
  {
    if k == 20 || IsInteger(Shift(m, k)) then k else FractionDigits(m, k + 1)
  }

  /** The integer part of `m * 10^k`. */
  function ShiftedFloor(m: real, k: nat): (r: nat)
    requires m >= 0.0
  {
    var x := Shift(m, k);
    assert x >= 0.0;
    x.Floor
  }

  /** `s` with zeros in front, up to length `k`. */
  function PadZeros(s: string, k: nat): (r: string)
    ensures |r| == if |s| < k then k else |s|
    decreases k - |s|
  {
    if |s| < k then PadZeros("0" + s, k) else s
  }

  /** The digits of `m >= 0` in positional notation with `k` fraction digits:
      the digits of `m * 10^k`, padded with zeros in front so that at least one
      digit stands before the point. */
  function PositionalText(m: real, k: nat): string
    requires m >= 0.0
  {
    var digits := PadZeros(NatToString(ShiftedFloor(m, k)), k + 1);
    if k == 0 then digits
    else digits[..|digits| - k] + "." + digits[|digits| - k..]
  }

  /** `v.toString()` for a number of at most 20 fraction digits and below
      10^21, the range where JavaScript prints plain positional notation. */
  function NumberToString(v: real): string {
    var m := if v < 0.0 then -v else v;
    var digits := PositionalText(m, FractionDigits(m, 0));
    if v < 0.0 then "-" + digits else digits
  }

  /** An integral number prints as its integer digits. */
  lemma NumberToStringOfInt(n: int)
    ensures NumberToString(n as real) == IntToString(n)
  {
    var a: nat := if n < 0 then -n else n;
    var m: real := a as real;
    assert Shift(m, 0) == m;
    assert IsInteger(m);
    assert FractionDigits(m, 0) == 0;
    assert ShiftedFloor(m, 0) == a;
  }

  /** `Math.round(x)`: the nearest integer, halves rounded up. */
  function Round(x: real): int {
    (x + 0.5).Floor
  }

  /** `Math.round` never decreases as its argument grows. */
  lemma RoundMonotone(x: real, y: real)
    requires x <= y
    ensures Round(x) <= Round(y)
  {
  }

  /** `Math.round` is within a half of its argument. */
  lemma RoundClose(x: real)
    ensures x - 0.5 < Round(x) as real <= x + 0.5
  {
  }
}

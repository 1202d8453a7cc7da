/** Text-to-number conversions used by the parsers: `BigInt(text)` and the unary
    `+text`, restricted to their decimal forms. Both treat the empty string as 0,
    as JavaScript does. `None` stands for a SyntaxError (BigInt) or NaN (`+text`). */
module JsLiterals {
  import opened JsValues

  predicate IsDigit(c: char) {
    '0' <= c <= '9'
  }

  predicate AllDigits(s: string) {
    forall i :: 0 <= i < |s| ==> IsDigit(s[i])
  }

  /** The value of a run of decimal digits, most significant first. */
  function DigitsValue(ds: string): nat
    requires AllDigits(ds)
  {
    if ds == [] then 0
    else DigitsValue(ds[..|ds| - 1]) * 10 + (ds[|ds| - 1] - '0') as nat
  }

  function Pow10(n: nat): (p: nat)
    ensures p >= 1
  {
    if n == 0 then 1 else 10 * Pow10(n - 1)
  }

  /** Splits off a leading '+' or '-': the sign as +1/-1 and the rest. */
  function SplitSign(s: string): (r: (int, string))
    ensures r.0 == 1 || r.0 == -1
    ensures r.1 == s || (|s| > 0 && (s[0] == '-' || s[0] == '+') && r.1 == s[1..])
  {
    if |s| > 0 && s[0] == '-' then (-1, s[1..])
    else if |s| > 0 && s[0] == '+' then (1, s[1..])
    else (1, s)
  }

  /** `BigInt(text)`: empty text is 0n; otherwise an optional sign and at least one
      decimal digit. Anything else raises a SyntaxError (None). */
  function StringToBigInt(text: string): (r: Option<int>)
    ensures r.Some? ==> StringToNumber(text) == Some(r.value as real)
  {
    if text == [] then Some(0)
    else
      var (sign, digits) := SplitSign(text);
      if digits != [] && AllDigits(digits) then
        assert DotIndex(digits, 0) == |digits|;
        Some(sign * DigitsValue(digits))
      else None
  }

  /** An unsigned decimal literal `ddd`, `ddd.`, `.ddd` or `ddd.ddd` (at least one digit). */
  function UnsignedDecimal(u: string): Option<real> {
    var dot := DotIndex(u, 0);
    if dot == |u| then
      if u != [] && AllDigits(u) then Some(DigitsValue(u) as real) else None
    else
      var whole, frac := u[..dot], u[dot + 1..];
      if AllDigits(whole) && AllDigits(frac) && |whole| + |frac| > 0
      then Some(DigitsValue(whole) as real + DigitsValue(frac) as real / Pow10(|frac|) as real)
      else None
  }

  /** Index of the first '.' at or after `from`, or `|u|` when there is none. */
  function DotIndex(u: string, from: nat): (k: nat)
    requires from <= |u|
    ensures from <= k <= |u|
    ensures k < |u| ==> u[k] == '.'
    ensures forall i :: from <= i < k ==> u[i] != '.'
    decreases |u| - from
  {
    if from == |u| then from else if u[from] == '.' then from else DotIndex(u, from + 1)
  }

  /** `+text`: empty text is 0; otherwise an optional sign and an unsigned decimal literal.
      Anything else is NaN (None). */
  function StringToNumber(text: string): (r: Option<real>)
    ensures r.Some? && text != [] ==> exists k :: 0 <= k < |text| && IsDigit(text[k])
    ensures r.Some? ==> forall k :: 0 <= k < |text| ==>
              IsDigit(text[k]) || text[k] == '.' || (k == 0 && (text[k] == '-' || text[k] == '+'))
  {
    if text == [] then Some(0.0)
    else
      var (sign, u) := SplitSign(text);
      match UnsignedDecimal(u)
      case None => None
      case Some(x) =>
        UnsignedDecimalShape(u);
        var j :| 0 <= j < |u| && IsDigit(u[j]);
        assert IsDigit(text[|text| - |u| + j]);
        Some(sign as real * x)
  }

  /** A literal `UnsignedDecimal` accepts holds a digit and nothing but digits and points. */
  lemma UnsignedDecimalShape(u: string)
    requires UnsignedDecimal(u).Some?
    ensures exists j :: 0 <= j < |u| && IsDigit(u[j])
    ensures forall j :: 0 <= j < |u| ==> IsDigit(u[j]) || u[j] == '.'
  {
    var dot := DotIndex(u, 0);
    if dot == |u| {
      assert IsDigit(u[0]);
    } else {
      var whole, frac := u[..dot], u[dot + 1..];
      if |whole| > 0 { assert IsDigit(u[0]) by { assert u[0] == whole[0]; } }
      else { assert IsDigit(u[dot + 1]) by { assert u[dot + 1] == frac[0]; } }
      forall j | 0 <= j < |u| ensures IsDigit(u[j]) || u[j] == '.' {
        if j < dot { assert u[j] == whole[j]; }
        else if j > dot { assert u[j] == frac[j - dot - 1]; }
      }
    }
  }

  /** Decimal rendering of a natural number, as `String(n)` gives it. */
  function Decimal(n: nat): (s: string)
    ensures s != [] && AllDigits(s)
    ensures forall i :: 0 <= i < |s| ==> s[i] != '.'
  {
    if n < 10 then [('0' as int + n) as char]
    else Decimal(n / 10) + [('0' as int + n % 10) as char]
  }

  /** Decimal rendering of an integer with a leading '-' when negative. */
  function ShowInt(i: int): string {
    if i < 0 then "-" + Decimal(-i) else Decimal(i)
  }

  lemma {:induction false} DigitsValueOfDecimal(n: nat)
    ensures DigitsValue(Decimal(n)) == n
  {
    if n >= 10 {
      var s := Decimal(n);
      assert s[..|s| - 1] == Decimal(n / 10);
      DigitsValueOfDecimal(n / 10);
    }
  }

  /** `BigInt(String(i)) == i`: the BigInt parser inverts the decimal rendering. */
  lemma BigIntRoundTrip(i: int)
    ensures StringToBigInt(ShowInt(i)) == Some(i)
  {
    var s := ShowInt(i);
    var n: nat := if i < 0 then -i else i;
    var sign := if i < 0 then -1 else 1;
    DigitsValueOfDecimal(n);
    assert SplitSign(s) == (sign, Decimal(n)) by {
      if i >= 0 { assert s[0] != '-' && s[0] != '+'; }
    }
    assert sign * DigitsValue(Decimal(n)) == i;
  }

  /** `+String(i) == i`: on integer text the number conversion agrees with BigInt. */
  lemma NumberOfIntegerText(i: int)
    ensures StringToNumber(ShowInt(i)) == Some(i as real)
  {
    BigIntRoundTrip(i);
  }
}

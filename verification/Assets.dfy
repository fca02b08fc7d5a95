// Fixed-point amounts: asset/mod.rs and asset/precision.rs.

module Assets {
  import opened Wrappers
  import opened Numbers

  const MAX_PRECISION := 5

  /** One unit is 10^-5 of a token. */
  type Asset = i64
  const UNITS_PER_TOKEN: Asset := 100_000

  function CheckedAdd(a: Asset, b: Asset): Option<Asset> {
    if FitsI64(a + b) then Some(a + b) else None
  }

  function CheckedSub(a: Asset, b: Asset): Option<Asset> {
    if FitsI64(a - b) then Some(a - b) else None
  }

  /** `set_decimals_i64`; the table of multipliers has 19 entries. */
  function SetDecimalsI64(num: i64, orig: nat, new_: nat): Option<i64>
    requires -19 < orig - new_ < 19
  {
    if orig > new_ then
      PowPositive(10, orig - new_);
      var q := TruncDiv(num, Pow(10, orig - new_));
      if FitsI64(q) then Some(q) else None
    else
      var p := num * Pow(10, new_ - orig);
      if FitsI64(p) then Some(p) else None
  }

  /** The product of two 64-bit amounts fits the 128-bit intermediate. Only the upper bound of
      the rescaled product is tested; the final cast wraps. */
  function CheckedMul(a: Asset, b: Asset): Option<Asset> {
    var q := TruncDiv(a * b, 100_000);
    if q > I64_MAX then None else Some(WrapI64(q))
  }

  function CheckedDiv(a: Asset, b: Asset): Option<Asset> {
    if b == 0 then None else
      var scaled :- SetDecimalsI64(a, MAX_PRECISION, 2 * MAX_PRECISION);
      var q := TruncDiv(scaled, b);
      if FitsI64(q) then Some(q) else None
  }

  /** `set_decimals_big`, on unbounded integers. */
  function SetDecimalsBig(num: int, orig: nat, new_: nat): int {
    if orig <= new_ then num * Pow(10, new_ - orig)
    else
      PowPositive(10, orig - new_);
      TruncDiv(num, Pow(10, orig - new_))
  }

  /** What `checked_pow` is meant to compute: the exact power, then one truncation back to five
      decimals. There is no result when 5 * num overflows 16 bits or the result 64. */
  function CheckedPow(a: Asset, num: u16): Option<Asset> {
    if num == 0 then Some(UNITS_PER_TOKEN)
    else if MAX_PRECISION * num > 0xFFFF then None
    else
      var r := SetDecimalsBig(Pow(a, num), MAX_PRECISION * num, MAX_PRECISION);
      if FitsI64(r) then Some(r) else None
  }

  /** The loop of `checked_pow`: square and multiply on unbounded integers. */
  method CheckedPowBySquaring(a: Asset, num: u16) returns (r: Option<Asset>)
    ensures r == CheckedPow(a, num)
  {
    if num == 0 {
      assert Pow(10, 5) == 100_000;
      return SetDecimalsI64(1, 0, MAX_PRECISION);
    }
    if MAX_PRECISION * num > 0xFFFF {
      return None;
    }
    var res: int := 1;
    var base: int := a;
    var exp: nat := num;
    while true
      invariant exp > 0
      invariant res * Pow(base, exp) == Pow(a, num)
      decreases exp
    {
      ghost var half := exp / 2;
      PowSquare(base, half);
      if exp % 2 == 1 {
        assert res * Pow(base, exp) == res * base * Pow(base * base, half) by {
          assert Pow(base, exp) == base * Pow(base, exp - 1);
        }
        res := res * base;
      }
      assert res * Pow(base * base, half) == Pow(a, num);
      exp := exp / 2;
      if exp == 0 {
        break;
      }
      base := base * base;
    }
    res := SetDecimalsBig(res, MAX_PRECISION * num, MAX_PRECISION);
    return if FitsI64(res) then Some(res) else None;
  }

  /** The result of a power is the true power rounded toward zero at five decimals: no
      intermediate rounding, whatever the sign of the base. */
  lemma PowIsOneTruncation(a: Asset, num: u16, r: Asset)
    requires num > 0
    ensures CheckedPow(a, num) == Some(r)
       <==> && MAX_PRECISION * num <= 0xFFFF
            && var scale := Pow(10, MAX_PRECISION * num - MAX_PRECISION);
               && Abs(r) * scale <= Abs(Pow(a, num)) < Abs(r) * scale + scale
               && (r > 0 ==> Pow(a, num) > 0) && (r < 0 ==> Pow(a, num) < 0)
  {
    var d := MAX_PRECISION * num - MAX_PRECISION;
    PowPositive(10, d);
    TruncDivUnique(Pow(a, num), Pow(10, d), r);
    if d == 0 {
      assert Pow(10, d) == 1;
      assert TruncDiv(Pow(a, num), 1) == Pow(a, num);
    }
  }

  /** `checked_mul` is exact (the truncated product, or no result) when the truncated product is
      at least the least 64-bit number, and only then. */
  lemma MulExactIff(a: Asset, b: Asset)
    ensures var q := TruncDiv(a * b, 100_000);
            CheckedMul(a, b) == (if FitsI64(q) then Some(q) else None) <==> q >= I64_MIN
  {
  }

  /** Below that bound the cast wraps: twice the least amount comes out as nothing. */
  lemma MulWrapsBelow()
    ensures var a: Asset := I64_MIN; CheckedMul(a, 200_000) == Some(0)
  {
  }

  /** `checked_div` gives the truncated quotient, or no result where that does not fit, unless the
      dividend overflows when it is widened to ten decimals first. */
  lemma DivExactIff(a: Asset, b: Asset)
    requires b != 0
    ensures var q := TruncDiv(a * 100_000, b);
            CheckedDiv(a, b) == (if FitsI64(q) then Some(q) else None) <==> FitsI64(a * 100_000) || !FitsI64(q)
  {
    assert Pow(10, 5) == 100_000;
  }

  /** A quotient of one token that is not found, as the dividend overflows first. */
  lemma DivOverflows()
    ensures var a: Asset := 1_000_000_000_000_000;
            CheckedDiv(a, a) == None && TruncDiv(a * 100_000, a) == UNITS_PER_TOKEN
  {
    assert Pow(10, 5) == 100_000;
  }

  lemma {:induction false} PowerOfTwoBound(n: nat)
    ensures Pow(2, n) * UNITS_PER_TOKEN <= I64_MAX <==> n <= 46
  {
    assert Pow(2, 16) == 65536;
    PowAdd(2, 16, 16);
    PowAdd(2, 32, 14);
    assert Pow(2, 14) == 16384;
    assert Pow(2, 46) == 70_368_744_177_664;
    assert Pow(2, 47) == 2 * Pow(2, 46);
    if n <= 46 {
      PowMonotone(2, n, 46);
    } else {
      PowMonotone(2, 47, n);
    }
  }

  /** Powers of two tokens are exact, and the 47th no longer fits. */
  lemma PowOfTwoTokens(n: u16)
    ensures CheckedPow(200_000, n) == (if n <= 46 then Some(Pow(2, n) * UNITS_PER_TOKEN) else None)
  {
    PowerOfTwoBound(n);
    if n > 0 && MAX_PRECISION * n <= 0xFFFF {
      var d := MAX_PRECISION * n - MAX_PRECISION;
      var x, s := Pow(2, n) * UNITS_PER_TOKEN, Pow(10, d);
      PowPositive(10, d);
      PowPositive(2, n);
      PowOfTokensFactors(n, d);
      TruncDivExact(x, s);
      if d == 0 {
        assert s == 1;
      }
    }
  }

  lemma PowOfTokensFactors(n: nat, d: nat)
    requires n > 0 && d == 5 * n - 5
    ensures Pow(200_000, n) == (Pow(2, n) * UNITS_PER_TOKEN) * Pow(10, d)
  {
    PowOfProduct(2, UNITS_PER_TOKEN, n);
    TokensAsDecimals(n);
    PowAdd(10, d, 5);
    assert Pow(10, 5) == UNITS_PER_TOKEN;
    var p, s := Pow(2, n), Pow(10, d);
    assert p * (s * UNITS_PER_TOKEN) == (p * UNITS_PER_TOKEN) * s;
  }

  lemma {:induction false} TokensAsDecimals(n: nat)
    ensures Pow(UNITS_PER_TOKEN, n) == Pow(10, 5 * n)
  {
    if n > 0 {
      TokensAsDecimals(n - 1);
      PowAdd(10, 5, 5 * (n - 1));
      assert Pow(10, 5) == UNITS_PER_TOKEN;
    }
  }
}

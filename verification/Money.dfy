/**
 Monetary amounts and token prices.

 `money` keeps six decimal places, rounding half to even (roundTiesToEven of IEEE 754-2019,
 section 4.3.1), so an amount is a whole number of micro-USD.  Prices and unrounded costs are
 exact reals; the same price formula serves the router's estimate and the settled cost.
 */
module Money {

  type Price = x: real | x >= 0.0 witness 0.0

  const MILLION: real := 1000000.0

  function RoundHalfEven(x: real): int
  {
    var below := x.Floor;
    var excess := x - below as real;
    if excess < 0.5 then below
    else if excess > 0.5 then below + 1
    else if below % 2 == 0 then below
    else below + 1
  }

  /** `money(value)`, in micro-USD. */
  function ToMicros(usd: real): int
  {
    RoundHalfEven(usd * MILLION)
  }

  /** `n` is a nearest integer to `x`, the even one when two are equally near. */
  predicate NearestEven(x: real, n: int)
  {
    && -0.5 <= x - n as real <= 0.5
    && (x - n as real == 0.5 || x - n as real == -0.5 ==> n % 2 == 0)
  }

  /** Rounding is characterised by nearness: it yields such an integer, and there is only one. */
  lemma RoundIsNearestEven(x: real, n: int)
    ensures NearestEven(x, n) <==> n == RoundHalfEven(x)
  {
    var below := x.Floor;
    assert below as real <= x < below as real + 1.0;
    if NearestEven(x, n) {
      assert below as real - 0.5 <= n as real <= below as real + 1.5;
      assert n == below || n == below + 1;
    }
  }

  lemma RoundMonotone(x: real, y: real)
    requires x <= y
    ensures RoundHalfEven(x) <= RoundHalfEven(y)
  {
    if x.Floor < y.Floor {
      assert RoundHalfEven(x) <= x.Floor + 1 <= y.Floor;
    }
  }

  lemma MoneyMonotone(x: real, y: real)
    requires x <= y
    ensures ToMicros(x) <= ToMicros(y)
  {
    RoundMonotone(x * MILLION, y * MILLION);
  }

  /** An amount that already has six decimals is kept. */
  lemma MoneyOfMicros(n: int)
    ensures ToMicros(n as real / MILLION) == n
  {
    assert n as real / MILLION * MILLION == n as real;
  }

  lemma MoneyNonNegative(x: real)
    requires x >= 0.0
    ensures ToMicros(x) >= 0
  {
    MoneyMonotone(0.0, x);
    MoneyOfMicros(0);
  }

  /** Price of `input` and `output` tokens at the given prices per million. */
  function TokenCost(inputPrice: Price, outputPrice: Price, input: nat, output: nat): real
  {
    (input as real * inputPrice + output as real * outputPrice) / MILLION
  }

  lemma TokenCostMonotone(inputPrice: Price, outputPrice: Price, input: nat, output: nat, input': nat, output': nat)
    requires input <= input' && output <= output'
    ensures 0.0 <= TokenCost(inputPrice, outputPrice, input, output)
                <= TokenCost(inputPrice, outputPrice, input', output')
  {
    ProductMonotone(input, input', inputPrice);
    ProductMonotone(output, output', outputPrice);
  }

  lemma ProductMonotone(n: nat, m: nat, price: Price)
    requires n <= m
    ensures 0.0 <= n as real * price <= m as real * price
  {
    assert (m - n) as real * price >= 0.0;
    assert m as real * price == n as real * price + (m - n) as real * price;
  }
}

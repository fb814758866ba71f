/**
 Vocabulary shared by every component: the two outcomes of a binary market, the
 two sides of an order, failure-carrying results, and exact-real versions of the
 decimal helpers of the trading code.
 */
module Common {

  datatype Option<+T> = None | Some(value: T)

  datatype Result<+T, +E> = Ok(value: T) | Err(error: E)

  datatype Outcome = Yes | No

  datatype Side = Buy | Sell

  /** Facts that stay out of the solver's sight until a proof looks at their topic. */
  datatype Topic =
    | AboutRuns | AboutResting | AboutPayments | AboutTrades | AboutStream
    | AboutFloors | AboutProfit | AboutRaising | AboutFills | AboutGap | AboutWallet | AboutSignals
    | AboutQuotes | AboutExits | AboutSizes | AboutPlacing | AboutSteps | AboutTraces

  /** Always true; naming it asks the verifier to look inside the predicates of a topic. */
  predicate Look(topic: Topic, n: nat) {
    true
  }

  const U32_MAX: nat := 0xFFFF_FFFF

  const NANOS_PER_SEC: int := 1_000_000_000

  /** Whole seconds of a span of nanoseconds, cut off toward zero. */
  function NumSeconds(nanos: int): int {
    if nanos >= 0 then nanos / NANOS_PER_SEC else -((-nanos) / NANOS_PER_SEC)
  }

  /** A span has k whole seconds exactly when it is at least k times a thousand million nanoseconds long. */
  lemma WholeSeconds(nanos: int, k: int)
    ensures 0 < k ==> (NumSeconds(nanos) >= k <==> nanos >= k * 1_000_000_000)
    ensures 0 < k ==> (NumSeconds(nanos) <= -k <==> nanos <= -k * 1_000_000_000)
  {
  }

  function Abs(x: real): real {
    if x < 0.0 then -x else x
  }

  function Min(x: real, y: real): real {
    if x <= y then x else y
  }

  function Max(x: real, y: real): real {
    if x >= y then x else y
  }

  /** The text occurs somewhere in the string. */
  predicate Contains(s: string, part: string) {
    exists i :: 0 <= i <= |s| && part <= s[i..]
  }

  lemma ContainsMeans(s: string, part: string)
    ensures Contains(s, part) <==> exists a, b :: s == a + part + b
  {
    if Contains(s, part) {
      var i :| 0 <= i <= |s| && part <= s[i..];
      assert s == s[..i] + part + s[i + |part|..];
    }
    forall a, b | s == a + part + b ensures Contains(s, part) {
      assert s[|a|..] == part + b;
    }
  }

  lemma Regroup<T>(a: seq<T>, b: seq<T>, c: seq<T>)
    ensures (a + b) + c == a + (b + c)
  {
  }

  /** Moving the first element of the rest to the end of what is done. */
  lemma MoveOver<T>(done: seq<T>, x: T, rest: seq<T>)
    ensures done + ([x] + rest) == (done + [x]) + rest
  {
  }

  /** Multiplying back what was divided out. */
  lemma DivMul(a: real, b: real)
    requires b != 0.0
    ensures (a / b) * b == a
  {
  }

  lemma MulNonNegative(a: real, b: real)
    requires 0.0 <= a && 0.0 <= b
    ensures 0.0 <= a * b
  {
  }

  lemma MulPositive(a: real, b: real)
    requires 0.0 < a && 0.0 < b
    ensures 0.0 < a * b
  {
  }

  lemma MulMonotone(a: real, b: real, c: real)
    requires 0.0 <= a && b <= c
    ensures a * b <= a * c
  {
    MulNonNegative(a, c - b);
  }
}

/**
 Rounding helpers, and the smallest order the exchange takes. Prices
 are cut down to a tick, order sizes to two decimals.
 */
module Decimals {
  import opened Common

  const TICK_SIZE: real := 0.01

  const MIN_ORDER_SHARES: real := 5.0

  predicate IsWhole(x: real) {
    x == x.Floor as real
  }

  lemma AtLeast(price: real, k: real, q: real, tick: real)
    requires tick > 0.0 && k <= q && price == q * tick
    ensures k * tick <= price
  {
    var d := q - k;
    MulNonNegative(d, tick);
    assert d * tick == price - k * tick;
  }

  lemma LessThan(price: real, k: real, q: real, tick: real)
    requires tick > 0.0 && q < k + 1.0 && price == q * tick
    ensures price < k * tick + tick
  {
    var d := k + 1.0 - q;
    MulPositive(d, tick);
    assert d * tick == k * tick + tick - price;
  }

  lemma FloorOfQuotient(price: real, tick: real)
    requires tick > 0.0
    ensures (price / tick).Floor as real * tick <= price < (price / tick).Floor as real * tick + tick
  {
    var q := price / tick;
    DivMul(price, tick);
    AtLeast(price, q.Floor as real, q, tick);
    LessThan(price, q.Floor as real, q, tick);
  }

  lemma WholeTimesTick(k: int, tick: real)
    requires tick != 0.0
    ensures (k as real * tick) / tick == k as real
  {
  }

  /** The largest whole multiple of `tick` that does not exceed `price`; a zero tick means no rounding. */
  function RoundDownToTick(price: real, tick: real): (r: real)
    ensures tick > 0.0 ==> r <= price < r + tick
    ensures tick != 0.0 ==> IsWhole(r / tick)
    ensures tick == 0.0 ==> r == price
  {
    if tick == 0.0 then price
    else
      var k := (price / tick).Floor;
      WholeTimesTick(k, tick);
      assert tick > 0.0 ==> k as real * tick <= price < k as real * tick + tick by {
        if tick > 0.0 { FloorOfQuotient(price, tick); }
      }
      k as real * tick
  }

  /** Sizes lose everything past the second decimal, and negative sizes become zero. */
  function QuantizeSize(size: real): (r: real)
    ensures 0.0 <= r <= Max(size, 0.0) < r + 0.01
    ensures IsWhole(r * 100.0)
  {
    if size <= 0.0 then 0.0
    else (size * 100.0).Floor as real / 100.0
  }

  /** Cutting a size twice changes nothing: what was planned is what is submitted. */
  lemma QuantizeIdempotent(size: real)
    ensures QuantizeSize(QuantizeSize(size)) == QuantizeSize(size)
  {
    var r := QuantizeSize(size);
    assert IsWhole(r * 100.0);
  }

  /** Rounding a price twice changes nothing. */
  lemma RoundDownIdempotent(price: real, tick: real)
    ensures RoundDownToTick(RoundDownToTick(price, tick), tick) == RoundDownToTick(price, tick)
  {
    if tick != 0.0 {
      var r := RoundDownToTick(price, tick);
      assert IsWhole(r / tick);
      DivMul(r, tick);
    }
  }
}

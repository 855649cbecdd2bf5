/** `JellyfinClientManager.expo`: the generator of reconnect wait times. It
    keeps a counter n, yields 2^n and advances n while 2^n is below the cap,
    and from the first power that reaches the cap on yields the cap forever
    without advancing n. With no cap it yields every power of two. */
module Backoff {
  import opened PyValues

  /** The cap the reconnect loop passes (`self.expo(100)`). */
  const ReconnectCap: int := 100

  function Pow2(n: nat): (r: nat)
    ensures r >= 1
  {
    if n == 0 then 1 else 2 * Pow2(n - 1)
  }

  lemma {:induction false} Pow2Monotone(i: nat, j: nat)
    requires i <= j
    ensures Pow2(i) <= Pow2(j)
    decreases j
  {
    if i < j {
      Pow2Monotone(i, j - 1);
    }
  }

  lemma {:induction false} Pow2ExceedsExponent(n: nat)
    ensures Pow2(n) > n
  {
    if n > 0 {
      Pow2ExceedsExponent(n - 1);
    }
  }

  /** The i-th value the generator yields (counting from 0), in closed form. */
  function ExpoAt(maxValue: Option<int>, i: nat): (r: int)
    ensures r <= Pow2(i)
    ensures maxValue.Some? ==> r <= maxValue.value
    ensures r == Pow2(i) || (maxValue.Some? && r == maxValue.value)
  {
    if maxValue.None? || Pow2(i) < maxValue.value then Pow2(i) else maxValue.value
  }

  /** The first `count` values of `expo(max_value)`, produced by the
      generator's own loop: `a = 2 ** n`; yield a and advance n while a is
      below the cap, otherwise yield the cap. */
  method ExpoPrefix(maxValue: Option<int>, count: nat) returns (ys: seq<int>)
    ensures |ys| == count
    ensures forall i :: 0 <= i < count ==> ys[i] == ExpoAt(maxValue, i)
  {
    var n: nat := 0;
    ys := [];
    while |ys| < count
      invariant |ys| <= count
      invariant n <= |ys|
      invariant n < |ys| ==> maxValue.Some? && Pow2(n) >= maxValue.value
      invariant forall i :: 0 <= i < |ys| ==> ys[i] == ExpoAt(maxValue, i)
    {
      var a := Pow2(n);
      if maxValue.None? || a < maxValue.value {
        ys := ys + [a];
        n := n + 1;
      } else {
        Pow2Monotone(n, |ys|);
        ys := ys + [maxValue.value];
      }
    }
  }

  /** Without a cap the generator yields exactly 1, 2, 4, ... */
  lemma {:induction false} UncappedDoubles(i: nat)
    ensures ExpoAt(None, 0) == 1
    ensures ExpoAt(None, i + 1) == 2 * ExpoAt(None, i)
  {
  }

  /** The sequence never decreases. */
  lemma ExpoMonotone(maxValue: Option<int>, i: nat, j: nat)
    requires i <= j
    ensures ExpoAt(maxValue, i) <= ExpoAt(maxValue, j)
  {
    Pow2Monotone(i, j);
  }

  /** A cap is never exceeded, and once reached it is yielded forever. */
  lemma ExpoCapped(m: int, i: nat, j: nat)
    requires i <= j
    ensures ExpoAt(Some(m), i) <= m
    ensures ExpoAt(Some(m), i) == m ==> ExpoAt(Some(m), j) == m
  {
    Pow2Monotone(i, j);
  }

  /** Below the cap each value is double the previous one; the first doubling
      that would reach the cap yields the cap instead. */
  lemma ExpoStep(m: int, i: nat)
    requires ExpoAt(Some(m), i) < m
    ensures ExpoAt(Some(m), i + 1) == if 2 * ExpoAt(Some(m), i) < m then 2 * ExpoAt(Some(m), i) else m
  {
  }

  /** Every cap is reached: at the latest after `m` steps. */
  lemma ExpoReachesCap(m: int)
    ensures ExpoAt(Some(m), if m < 0 then 0 else m) == m
  {
    if m >= 0 {
      Pow2ExceedsExponent(m);
    }
  }

  /** The waits of the reconnect loop: 1, 2, 4, ..., 64 seconds, then 100 forever. */
  lemma ReconnectWaits(i: nat)
    ensures i < 7 ==> ExpoAt(Some(ReconnectCap), i) == Pow2(i)
    ensures i >= 7 ==> ExpoAt(Some(ReconnectCap), i) == 100
  {
    if i >= 7 {
      Pow2Monotone(7, i);
    } else {
      Pow2Monotone(i, 6);
    }
  }
}

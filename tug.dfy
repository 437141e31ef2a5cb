/**
 * The tug-of-war signal: a bounded integer that paid "chaos" actions pull
 * down and paid "order" actions pull up, and the polling interval derived
 * from it.
 */
module TugOfWar {

  const Min: int := -100
  const Max: int := 100
  /** Value of `_tug_of_war` when the bot is created. */
  const Initial: int := 50
  /** Shortest polling interval, in seconds, used whenever the signal is below 1. */
  const FloorInterval: real := 0.05

  function MaxInt(a: int, b: int): int { if a >= b then a else b }
  function MinInt(a: int, b: int): int { if a <= b then a else b }
  function MaxReal(a: real, b: real): real { if a >= b then a else b }

  /** The setter's clamp `max(-100, min(100, value))`. */
  function Clamp(v: int): (r: int)
    ensures Min <= r <= Max
    ensures Min <= v <= Max ==> r == v
    ensures v < Min ==> r == Min
    ensures v > Max ==> r == Max
  {
    MaxInt(Min, MinInt(Max, v))
  }

  /** One paid action: `tug_of_war += delta` through the clamping setter. */
  function Pull(t: int, delta: int): (r: int)
    ensures Min <= r <= Max
  {
    Clamp(t + delta)
  }

  /** `k` paid actions of the same kind in a row. */
  function PullTimes(t: int, delta: int, k: nat): int
    decreases k
  {
    if k == 0 then t else PullTimes(Pull(t, delta), delta, k - 1)
  }

  /** Pulling two signals by the same amount keeps them in order. */
  lemma PullIsMonotone(a: int, b: int, delta: int)
    requires a <= b
    ensures Pull(a, delta) <= Pull(b, delta)
  {
  }

  /** Enough chaos actions of weight `w` bring any signal down to the floor. */
  lemma {:induction false} ChaosReachesFloor(t: int, w: int, k: nat)
    requires Min <= t <= Max && 0 < w
    requires k * w >= t - Min
    ensures PullTimes(t, -w, k) == Min
    decreases k
  {
    if k > 0 {
      var next := Pull(t, -w);
      assert (k - 1) * w == k * w - w;
      ChaosReachesFloor(next, w, k - 1);
    }
  }

  /** Once at the floor, further chaos actions leave the signal there. */
  lemma {:induction false} FloorAbsorbsChaos(w: int, k: nat)
    requires 0 <= w
    ensures PullTimes(Min, -w, k) == Min
    decreases k
  {
    if k > 0 {
      assert Pull(Min, -w) == Min;
      FloorAbsorbsChaos(w, k - 1);
    }
  }

  /**
   * From the initial 50, one chaos action of weight 5 gives 45, thirty of them
   * reach -100, and any number more stay at -100.
   */
  lemma ChaosFromInitial(extra: nat)
    ensures Pull(Initial, -5) == 45
    ensures PullTimes(Initial, -5, 30) == Min
    ensures PullTimes(Min, -5, extra) == Min
  {
    ChaosReachesFloor(Initial, 5, 30);
    FloorAbsorbsChaos(5, extra);
  }

  lemma MulMonotone(a: real, b: real, w: real)
    requires a <= b && 0.0 <= w
    ensures a * w <= b * w
  {
    var gap := b - a;
    assert gap * w >= 0.0;
  }

  /** The `poll_time` property: seconds to wait before the next window closes. */
  function PollTime(tug: int, maxPollTime: real): (t: real)
    ensures tug < 1 ==> t == FloorInterval
    ensures tug >= 1 ==> t >= 1.0
  {
    if tug < 1 then FloorInterval
    else MaxReal(0.0, (tug as real / 100.0) * maxPollTime - 1.0) + 1.0
  }

  /**
   * A higher signal never gives a shorter interval. With a negative
   * `max_poll_time` every signal of at least 1 gives exactly one second.
   */
  lemma PollTimeMonotone(a: int, b: int, maxPollTime: real)
    requires a <= b
    ensures PollTime(a, maxPollTime) <= PollTime(b, maxPollTime)
    ensures maxPollTime < 0.0 && 1 <= a ==> PollTime(a, maxPollTime) == 1.0
  {
  }

  /**
   * Within the signal's bounds the interval lies between 50 ms and the larger
   * of one second and `max_poll_time`.
   */
  lemma PollTimeBounded(tug: int, maxPollTime: real)
    requires Min <= tug <= Max
    ensures FloorInterval <= PollTime(tug, maxPollTime)
    ensures 0.0 <= maxPollTime ==> PollTime(tug, maxPollTime) <= MaxReal(1.0, maxPollTime)
  {
    if tug >= 1 && 0.0 <= maxPollTime {
      MulMonotone(tug as real / 100.0, 1.0, maxPollTime);
    }
  }

  /** At the ceiling the interval is `max_poll_time` itself, once that is at least one second. */
  lemma PollTimeAtMax(maxPollTime: real)
    requires 1.0 <= maxPollTime
    ensures PollTime(Max, maxPollTime) == maxPollTime
  {
  }

  /** At the floor the interval is the 50 ms minimum. */
  lemma PollTimeAtMin(maxPollTime: real)
    ensures PollTime(Min, maxPollTime) == FloorInterval
  {
  }
}

/**
 * The live USDT/INR rate card (RateDisplay component). Every refresh moves
 * the rate by a small random change, keeps it inside a fixed band, stores
 * it with two decimals and records the direction and size of the move.
 *
 * `Math.random()` and `new Date()` are parameters of the step; the refresh
 * interval, the loading spinner and its 500 ms timer are not modelled.
 */
module Rates {
  import opened FormValues

  const MinRate: real := 87.5

  const MaxRate: real := 89.5

  /** The bound on one random move: `(Math.random() - 0.5) * 0.3`. */
  const MaxChange: real := 0.15

  datatype Trend = Up | Down

  /** The `rates` state: rate, time of the last update, trend and percent change. */
  datatype RateState = RateState(usdtInr: real, lastUpdated: int, trend: Trend, changePercent: real)

  predicate InRange(rate: real) {
    MinRate <= rate <= MaxRate
  }

  /** The state at mount. */
  function Initial(nowMs: int): RateState {
    RateState(88.45, nowMs, Up, 0.45)
  }

  /** The random move drawn from `random` in [0, 1). */
  function ChangeOf(random: real): (change: real)
    requires 0.0 <= random < 1.0
    ensures -MaxChange <= change < MaxChange
    ensures change > 0.0 <==> random > 0.5
  {
    (random - 0.5) * 0.3
  }

  /** `Math.max(87.5, Math.min(89.5, x))`. */
  function Clamp(x: real): (c: real)
    ensures InRange(c)
    ensures InRange(x) ==> c == x
    ensures x < MinRate ==> c == MinRate
    ensures x > MaxRate ==> c == MaxRate
  {
    Max(MinRate, Min(MaxRate, x))
  }

  /**
   * The `setRates` updater. The stored rate is the clamped rate rounded to
   * two decimals, and so stays in the band; the trend says only whether the
   * random change was positive; the percent change is the rounded relative
   * move of the clamped rate, made non-negative.
   */
  function Tick(prev: RateState, change: real, nowMs: int): (r: RateState)
    requires prev.usdtInr > 0.0
    ensures InRange(r.usdtInr) && IsCents(r.usdtInr)
    ensures Abs(r.usdtInr - Clamp(prev.usdtInr + change)) <= 0.005
    ensures r.trend == Up <==> change > 0.0
    ensures r.changePercent >= 0.0
    ensures Abs(r.changePercent - Abs(Clamp(prev.usdtInr + change) - prev.usdtInr) / prev.usdtInr * 100.0) <= 0.005
    ensures r.lastUpdated == nowMs
  {
    var newRate := Clamp(prev.usdtInr + change);
    var changePercent := ToFixed2((newRate - prev.usdtInr) / prev.usdtInr * 100.0);
    RoundedRateInRange(newRate);
    ToFixed2IsCents(newRate);
    AbsOfRatio(newRate - prev.usdtInr, prev.usdtInr);
    RateState(ToFixed2(newRate), nowMs, if change > 0.0 then Up else Down, Abs(changePercent))
  }

  /**
   * A run of refreshes, each with its random change and clock reading. From
   * a rate in the band every refresh is defined (the rate is positive) and
   * the rate stays in the band with two decimals.
   */
  function Refreshes(s: RateState, ticks: seq<(real, int)>): (r: RateState)
    requires InRange(s.usdtInr)
    ensures InRange(r.usdtInr)
    ensures ticks != [] ==> IsCents(r.usdtInr) && r.lastUpdated == ticks[|ticks| - 1].1
    ensures ticks != [] ==> (r.trend == Up <==> ticks[|ticks| - 1].0 > 0.0)
    decreases |ticks|
  {
    if ticks == [] then s
    else
      var last := ticks[|ticks| - 1];
      Tick(Refreshes(s, ticks[..|ticks| - 1]), last.0, last.1)
  }

  /** Rounding a rate in the band to two decimals keeps it in the band. */
  lemma RoundedRateInRange(rate: real)
    requires InRange(rate)
    ensures InRange(ToFixed2(rate))
  {
    ToFixed2Monotone(MinRate, rate);
    ToFixed2Monotone(rate, MaxRate);
    assert MinRate * 100.0 == 8750.0;
    assert MaxRate * 100.0 == 8950.0;
    ToFixed2OfCents(MinRate);
    ToFixed2OfCents(MaxRate);
  }

  /** The magnitude of a relative move is the relative magnitude. */
  lemma AbsOfRatio(d: real, p: real)
    requires p > 0.0
    ensures Abs(d / p * 100.0) == Abs(d) / p * 100.0
  {
    if d < 0.0 {
      assert d / p * 100.0 == -((-d) / p * 100.0);
    }
  }

  /** The state at mount lies in the band with two decimals. */
  lemma InitialInRange(nowMs: int)
    ensures InRange(Initial(nowMs).usdtInr) && IsCents(Initial(nowMs).usdtInr)
  {
    assert Initial(nowMs).usdtInr * 100.0 == 8845.0;
  }

  /** The card never shows a rate outside the band, however many refreshes run. */
  lemma AlwaysInRange(ticks: seq<(real, int)>, mountMs: int)
    ensures InRange(Refreshes(Initial(mountMs), ticks).usdtInr)
  {
  }

  /** From a rate in the band, clamping never moves the rate further than the change. */
  lemma ClampMovesNoFurther(prev: real, change: real)
    requires InRange(prev)
    ensures Abs(Clamp(prev + change) - prev) <= Abs(change)
  {
  }

  /**
   * One refresh from a rate in the band, with a change drawn from
   * `Math.random()`, moves the stored rate by at most 0.155: at most 0.15
   * before rounding (exactly 0.15 only downwards, when `Math.random()` is 0),
   * and at most half a paisa for the rounding.
   */
  lemma TickMovesLittle(prev: RateState, random: real, nowMs: int)
    requires InRange(prev.usdtInr) && 0.0 <= random < 1.0
    ensures Abs(Clamp(prev.usdtInr + ChangeOf(random)) - prev.usdtInr) <= MaxChange
    ensures Abs(Tick(prev, ChangeOf(random), nowMs).usdtInr - prev.usdtInr) <= MaxChange + 0.005
  {
    var change := ChangeOf(random);
    ClampMovesNoFurther(prev.usdtInr, change);
  }

  /**
   * At the ceiling a positive change still reports an upward trend though
   * the rate does not move: the trend follows the random change, not the
   * stored rate.
   */
  lemma TrendAtCeiling(nowMs: int)
    ensures Tick(RateState(MaxRate, 0, Down, 0.0), 0.1, nowMs) == RateState(MaxRate, nowMs, Up, 0.0)
  {
    RoundedRateInRange(MaxRate);
    assert MaxRate * 100.0 == 8950.0;
    ToFixed2OfCents(MaxRate);
    assert (MaxRate - MaxRate) / MaxRate * 100.0 == 0.0;
    ToFixed2OfCents(0.0);
  }
}

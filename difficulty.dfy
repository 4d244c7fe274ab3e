/** The difficulty model: frame-delta cap, speed factor growth, forward speed
    and spawn-interval tightening, all in exact real arithmetic. */
module Difficulty {

  const MaxDt: real := 0.05
  const BaseSpeed: real := 220.0
  const MinSpeed: real := 200.0
  const MaxSpeed: real := 1200.0
  const BrakeFactor: real := 0.6
  /** Speed factor gained per second of play. */
  const SpeedGrowth: real := 0.02
  const InitialSpawnInterval: real := 1.0
  const MinSpawnInterval: real := 0.45
  const MaxSpawnInterval: real := 1.6
  const SpawnTightening: real := 0.98

  function Min(a: real, b: real): real { if a <= b then a else b }
  function Max(a: real, b: real): real { if a >= b then a else b }

  /** Math.max(lo, Math.min(hi, v)). */
  function Clamp(v: real, lo: real, hi: real): (r: real)
    ensures lo <= hi ==> lo <= r <= hi
    ensures lo <= v <= hi ==> r == v
    ensures v < lo ==> r == lo
    ensures lo <= hi && hi < v ==> r == hi
  {
    Max(lo, Min(hi, v))
  }

  /** The frame delta actually simulated: values above 0.05 s are cut to
      0.05 s, anything else is used as it is. */
  function FrameDelta(rawDt: real): (dt: real)
    ensures dt <= MaxDt
    ensures rawDt <= MaxDt ==> dt == rawDt
    ensures rawDt > MaxDt ==> dt == MaxDt
    ensures rawDt >= 0.0 ==> 0.0 <= dt <= rawDt
  {
    if rawDt > MaxDt then MaxDt else rawDt
  }

  /** The speed factor after a frame of dt seconds. */
  function NextSpeedFactor(speedFactor: real, dt: real): (r: real)
    ensures dt >= 0.0 ==> r >= speedFactor
    ensures dt > 0.0 ==> r > speedFactor
    ensures dt <= MaxDt ==> r <= speedFactor + MaxDt * SpeedGrowth
  {
    speedFactor + dt * SpeedGrowth
  }

  /** The forward speed of a frame, from the speed factor and whether the car
      was braking; always within [MinSpeed, MaxSpeed]. */
  function CurrentSpeed(speedFactor: real, braking: bool): (s: real)
    ensures MinSpeed <= s <= MaxSpeed
    ensures var raw := BaseSpeed * speedFactor * (if braking then BrakeFactor else 1.0);
            && (MinSpeed <= raw <= MaxSpeed ==> s == raw)
            && (raw < MinSpeed ==> s == MinSpeed)
            && (raw > MaxSpeed ==> s == MaxSpeed)
  {
    Clamp(BaseSpeed * speedFactor * (if braking then BrakeFactor else 1.0), MinSpeed, MaxSpeed)
  }

  /** A spawn is due once the accumulated timer reaches the interval. */
  predicate SpawnDue(timer: real, interval: real) {
    timer >= interval
  }

  /** The spawn interval after one more spawn: 2% shorter, kept within
      [MinSpawnInterval, MaxSpawnInterval]. */
  function NextSpawnInterval(interval: real): (r: real)
    ensures MinSpawnInterval <= r <= MaxSpawnInterval
    ensures MinSpawnInterval <= interval <= MaxSpawnInterval ==> r <= interval
  {
    Clamp(interval * SpawnTightening, MinSpawnInterval, MaxSpawnInterval)
  }

  function Pow(b: real, n: nat): real {
    if n == 0 then 1.0 else b * Pow(b, n - 1)
  }

  /** The spawn interval after n spawns of a run, which starts at 1.0 s. */
  function IntervalAfter(n: nat): real {
    if n == 0 then InitialSpawnInterval else NextSpawnInterval(IntervalAfter(n - 1))
  }

  lemma {:induction false} PowTighteningBounds(n: nat)
    ensures 0.0 < Pow(SpawnTightening, n) <= 1.0
  {
    if n > 0 {
      PowTighteningBounds(n - 1);
    }
  }

  /** Closed form of the spawn schedule: after n spawns the interval is
      0.98^n seconds until that falls below the 0.45 s floor, which it then
      keeps. */
  lemma {:induction false} IntervalAfterClosedForm(n: nat)
    ensures IntervalAfter(n) == Max(MinSpawnInterval, Pow(SpawnTightening, n))
  {
    if n > 0 {
      IntervalAfterClosedForm(n - 1);
      PowTighteningBounds(n - 1);
      var p := Pow(SpawnTightening, n - 1);
      assert Pow(SpawnTightening, n) == p * SpawnTightening;
      if p < MinSpawnInterval {
        assert p * SpawnTightening < MinSpawnInterval;
      }
    }
  }

  /** Every interval of a run's spawn schedule lies within [0.45 s, 1.0 s]. */
  lemma {:induction false} IntervalAfterBounds(n: nat)
    ensures MinSpawnInterval <= IntervalAfter(n) <= InitialSpawnInterval
  {
    if n > 0 {
      IntervalAfterBounds(n - 1);
    }
  }

  /** Across successive spawns the interval never grows. */
  lemma {:induction false} IntervalAfterNonIncreasing(m: nat, n: nat)
    requires m <= n
    ensures IntervalAfter(n) <= IntervalAfter(m)
    decreases n
  {
    if m < n {
      IntervalAfterNonIncreasing(m, n - 1);
      IntervalAfterBounds(n - 1);
    }
  }
}

/** The position estimate of `current_cover_position`: the whole seconds
    since the last relay pulse (or since construction), turned into a
    percentage of the configured closing time. */
module Position {
  import opened CoverStates

  const MicrosPerSecond: int := 1_000_000
  const SecondsPerDay: int := 86_400

  /** `(now - start).seconds` for clock readings in microseconds: Python
      normalises a time difference into days, seconds in [0, 86400) and
      microseconds, and the entity reads only the seconds part. */
  function ElapsedSeconds(start: int, now: int): (s: int)
    ensures 0 <= s < SecondsPerDay
    ensures 0 <= now - start < SecondsPerDay * MicrosPerSecond ==>
      s * MicrosPerSecond <= now - start < (s + 1) * MicrosPerSecond
  {
    ((now - start) / MicrosPerSecond) % SecondsPerDay
  }

  /** The percentage of a full closing run that `seconds` amounts to. */
  function Rate(seconds: nat, closeDuration: int): nat
    requires closeDuration > 0
  {
    seconds * 100 / closeDuration
  }

  /** `current_cover_position` for a given number of elapsed seconds: the rate
      while opening, its complement to 100 in every other state. */
  function Estimate(st: CoverState, seconds: nat, closeDuration: int): (p: int)
    requires closeDuration > 0
    ensures st == Opening ==> p * closeDuration <= seconds * 100 < (p + 1) * closeDuration
    ensures st != Opening ==> (100 - p) * closeDuration <= seconds * 100 < (101 - p) * closeDuration
  {
    RateIsFloor(seconds, closeDuration);
    var rate := Rate(seconds, closeDuration);
    if st == Opening then rate else 100 - rate
  }

  /** The rate is the largest whole percentage whose share of the closing
      time has elapsed. */
  lemma RateIsFloor(seconds: nat, closeDuration: int)
    requires closeDuration > 0
    ensures Rate(seconds, closeDuration) * closeDuration <= seconds * 100
    ensures seconds * 100 < (Rate(seconds, closeDuration) + 1) * closeDuration
  {
  }

  /** Within one closing time the estimate is a percentage. */
  lemma EstimateInRange(st: CoverState, seconds: nat, closeDuration: int)
    requires closeDuration > 0
    ensures seconds <= closeDuration ==> 0 <= Estimate(st, seconds, closeDuration) <= 100
  {
    if seconds <= closeDuration {
      RateMonotone(seconds, closeDuration, closeDuration);
      RateOfCloseDuration(closeDuration);
    }
  }

  /** More elapsed time never lowers the rate. */
  lemma RateMonotone(s1: nat, s2: nat, closeDuration: int)
    requires closeDuration > 0 && s1 <= s2
    ensures Rate(s1, closeDuration) <= Rate(s2, closeDuration)
  {
    var r1, r2 := Rate(s1, closeDuration), Rate(s2, closeDuration);
    RateIsFloor(s1, closeDuration);
    RateIsFloor(s2, closeDuration);
    assert r1 * closeDuration < (r2 + 1) * closeDuration;
    MulCancel(r1, r2 + 1, closeDuration);
  }

  /** A full closing time is exactly 100 percent. */
  lemma RateOfCloseDuration(closeDuration: int)
    requires closeDuration > 0
    ensures Rate(closeDuration, closeDuration) == 100
  {
    var r := Rate(closeDuration, closeDuration);
    RateIsFloor(closeDuration, closeDuration);
    assert r * closeDuration < 101 * closeDuration;
    MulCancel(r, 101, closeDuration);
    assert 100 * closeDuration < (r + 1) * closeDuration;
    MulCancel(100, r + 1, closeDuration);
  }

  lemma MulCancel(a: int, b: int, c: int)
    requires c > 0 && a * c < b * c
    ensures a < b
  {
  }

  /** Opening, the estimate rises with elapsed time; in every other state it falls. */
  lemma EstimateMonotone(st: CoverState, s1: nat, s2: nat, closeDuration: int)
    requires closeDuration > 0 && s1 <= s2
    ensures st == Opening ==> Estimate(st, s1, closeDuration) <= Estimate(st, s2, closeDuration)
    ensures st != Opening ==> Estimate(st, s1, closeDuration) >= Estimate(st, s2, closeDuration)
  {
    RateMonotone(s1, s2, closeDuration);
  }

  /** The estimates of an opening and of a non-opening cover always add up to 100. */
  lemma EstimateComplementary(st: CoverState, seconds: nat, closeDuration: int)
    requires closeDuration > 0 && st != Opening
    ensures Estimate(Opening, seconds, closeDuration) + Estimate(st, seconds, closeDuration) == 100
  {
  }

  /** The end points: no time elapsed gives 0 opening and 100 otherwise, a
      full closing time gives 100 opening and 0 otherwise. */
  lemma EstimateEndPoints(st: CoverState, closeDuration: int)
    requires closeDuration > 0
    ensures Estimate(st, 0, closeDuration) == (if st == Opening then 0 else 100)
    ensures Estimate(st, closeDuration, closeDuration) == (if st == Opening then 100 else 0)
  {
    RateOfCloseDuration(closeDuration);
  }

  /** The estimate is not clamped: past the closing time a cover that is not
      opening reports at most 0, and one that is opening at least 100. */
  lemma EstimateOverrun(st: CoverState, seconds: nat, closeDuration: int)
    requires closeDuration > 0 && seconds >= closeDuration
    ensures st == Opening ==> Estimate(st, seconds, closeDuration) >= 100
    ensures st != Opening ==> Estimate(st, seconds, closeDuration) <= 0
  {
    RateMonotone(closeDuration, seconds, closeDuration);
    RateOfCloseDuration(closeDuration);
  }

  /** A closed cover with a 5 second closing time, 6 seconds after its last
      pulse, reports -20; one just constructed reports 100 while closed. */
  lemma EstimateExamples()
    ensures Estimate(Closed, 6, 5) == -20
    ensures Estimate(Closed, 0, 5) == 100
    ensures Estimate(Opening, 2, 5) == 40
    ensures Estimate(Closing, 2, 5) == 60
  {
  }
}

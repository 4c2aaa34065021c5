/** Pregnancy-week and expected-delivery-date arithmetic. Instants are
    milliseconds since the epoch (`Date.getTime()`); the current instant, read
    from the clock by the service, is the parameter `now`. */
module DateHelpers {
  import opened Wrappers
  import opened JsSemantics

  const PregnancyDays: int := 280

  function Min(a: int, b: int): int { if a <= b then a else b }
  function Max(a: int, b: int): int { if a >= b then a else b }

  /** Whole days from `now` until `edd`, rounded down (negative once the
      date has passed). */
  function DaysUntilDelivery(edd: int, now: int): int
  {
    (edd - now) / MsPerDay
  }

  /** calculatePregnancyWeek: weeks elapsed of a 280-day pregnancy, kept
      between 1 and 40. */
  function CalculatePregnancyWeek(edd: int, now: int): (week: int)
    ensures 1 <= week <= 40
  {
    var daysPregnant := PregnancyDays - DaysUntilDelivery(edd, now);
    var weeksPregnant := daysPregnant / 7;
    Max(1, Min(40, weeksPregnant))
  }

  /** calculateEDD: the same local time 280 calendar days after `lmp`. With
      the local zone at a fixed offset from UTC this is 280 whole days of
      milliseconds later; NaN when that leaves the representable range. */
  function CalculateEDD(lmp: int): (edd: Option<int>)
    requires -MaxTimeValue <= lmp <= MaxTimeValue
    ensures edd.Some? ==> edd.value - lmp == PregnancyDays * MsPerDay
    ensures edd.None? <==> lmp + PregnancyDays * MsPerDay > MaxTimeValue
  {
    var t := lmp + PregnancyDays * MsPerDay;
    if t <= MaxTimeValue then Some(t) else None
  }

  /** isDeliveryImminent: delivery is due within the next two weeks. */
  function IsDeliveryImminent(edd: int, now: int): (imminent: bool)
    ensures imminent <==> 0 <= edd - now < 15 * MsPerDay
  {
    var daysUntilDelivery := DaysUntilDelivery(edd, now);
    daysUntilDelivery <= 14 && daysUntilDelivery >= 0
  }

  /** Week w between 2 and 39 is reported for exactly one week-long band of
      remaining days. */
  lemma WeekBand(edd: int, now: int, w: int)
    requires 2 <= w <= 39
    ensures CalculatePregnancyWeek(edd, now) == w <==>
              273 - 7 * w < DaysUntilDelivery(edd, now) <= 280 - 7 * w
  {
  }

  /** Week 1 covers every EDD at least 267 days away, and week 40 every EDD
      that is due today or has passed. */
  lemma WeekBounds(edd: int, now: int)
    ensures CalculatePregnancyWeek(edd, now) == 1 <==> DaysUntilDelivery(edd, now) >= 267
    ensures CalculatePregnancyWeek(edd, now) == 40 <==> DaysUntilDelivery(edd, now) <= 0
  {
  }

  /** A later expected delivery date never gives a later pregnancy week. */
  lemma WeekNonIncreasingInEdd(edd1: int, edd2: int, now: int)
    requires edd1 <= edd2
    ensures CalculatePregnancyWeek(edd2, now) <= CalculatePregnancyWeek(edd1, now)
  {
    assert DaysUntilDelivery(edd1, now) <= DaysUntilDelivery(edd2, now);
    var p1 := PregnancyDays - DaysUntilDelivery(edd1, now);
    var p2 := PregnancyDays - DaysUntilDelivery(edd2, now);
    assert p2 / 7 <= p1 / 7;
  }

  /** With the EDD computed from the last menstrual period, the week on the
      day d days after it (at `t` ms past the same time of day) counts the
      d whole days elapsed, plus one day as soon as any time has passed. */
  lemma WeekSinceLmp(lmp: int, d: int, t: int)
    requires -MaxTimeValue <= lmp <= MaxTimeValue
    requires CalculateEDD(lmp).Some?
    requires 0 <= t < MsPerDay
    ensures var now := lmp + d * MsPerDay + t;
            CalculatePregnancyWeek(CalculateEDD(lmp).value, now)
              == Max(1, Min(40, (d + (if t == 0 then 0 else 1)) / 7))
  {
    var edd := CalculateEDD(lmp).value;
    var now := lmp + d * MsPerDay + t;
    if t == 0 {
      assert edd - now == (PregnancyDays - d) * MsPerDay;
      assert DaysUntilDelivery(edd, now) == PregnancyDays - d;
    } else {
      assert edd - now == (PregnancyDays - d - 1) * MsPerDay + (MsPerDay - t);
      assert DaysUntilDelivery(edd, now) == PregnancyDays - d - 1;
    }
  }

  /** Imminent delivery means an EDD from now up to, but excluding, fifteen
      days ahead, by which time the pregnancy is at week 38 or later. */
  lemma ImminentDelivery(edd: int, now: int)
    ensures IsDeliveryImminent(edd, now) ==> CalculatePregnancyWeek(edd, now) >= 38
  {
  }
}

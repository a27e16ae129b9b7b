/** When a stream under order statistics delivers all of its requests: exactly when none of them
    falls on its departure date or later, which its arrival pattern decides. */
module Delivery {
  import opened ContinuousAttributeLite
  import opened DateTime
  import opened DemandStreamModel
  import opened DriverModel
  import opened OrderStatistics
  import opened RandomGeneration
  import opened RealArithmetic
  import opened RequestRuns
  import opened Search
  import opened StreamRuns

  /** The earliest preferred departure time that the stream can draw. */
  function EarliestTime(c: Configuration): int
    requires IsConfigured(c)
  {
    PreferredTime(c, 0.0)
  }

  lemma NoEarlierTime(c: Configuration, u: real)
    requires IsConfigured(c) && 0.0 <= u
    ensures EarliestTime(c) <= PreferredTime(c, u)
  {
    QuantileMonotone(c.preferredDepartureTime, 0.0, u);
    TruncateMonotone(Quantile(c.preferredDepartureTime, 0.0), Quantile(c.preferredDepartureTime, u));
  }

  /** Every cumulative probability that the generator can draw lands before every preferred departure
      time that the stream can draw. */
  ghost predicate LandsInTime(c: Configuration)
    requires IsConfigured(c)
  {
    forall p :: 1.0 - MAX_FACTOR <= p < 1.0 ==>
      IsBeforeDeparture(c.key.date, EarliestTime(c), RequestDateTime(c.key.date, Quantile(c.arrivalPattern, p)))
  }

  /** A pattern that ends one day before departure, as the Poisson walk does, lands in time. */
  lemma DefaultBoundLandsInTime(c: Configuration)
    requires IsConfigured(c) && Last(c.arrivalPattern.values) <= DEFAULT_LAST_LOWER_BOUND_ARRIVAL_PATTERN
    ensures LandsInTime(c)
  {
    hide Quantile, RequestDateTime, EarliestTime;
    forall p | 1.0 - MAX_FACTOR <= p < 1.0
      ensures IsBeforeDeparture(c.key.date, EarliestTime(c), RequestDateTime(c.key.date, Quantile(c.arrivalPattern, p)))
    {
      QuantileClamped(c.arrivalPattern, p);
      AtLeastOneDayBeforeDeparture(c.key.date, Quantile(c.arrivalPattern, p), EarliestTime(c));
    }
  }

  lemma CdfIsAboveFirst(d: Distribution, x: real)
    requires IsMonotone(d)
    ensures d.cumulatives[0] <= Cdf(d, x)
  {
    CdfInSegment(d, x);
    var idx := FirstAbove(d.values, x);
    assert idx == 0 || d.cumulatives[0] <= d.cumulatives[idx - 1];
  }

  /** A monotone pattern lands in time exactly if it starts before the deadline of the earliest
      preferred time, and either ends before it or has reached probability one there. */
  lemma LandsInTimeIff(c: Configuration)
    requires IsConfigured(c) && IsMonotone(c.arrivalPattern)
    ensures var d, x := c.arrivalPattern, Deadline(EarliestTime(c));
            LandsInTime(c) <==> d.values[0] < x && (Last(d.values) < x || 1.0 <= Cdf(d, x))
  {
    hide Quantile, RequestDateTime, Cdf, IsEngine, IsLibrary, AreCovered, EarliestTime, Deadline, IsBeforeDeparture;
    var d, x := c.arrivalPattern, Deadline(EarliestTime(c));
    CdfIsAboveFirst(d, x);
    forall p | 1.0 - MAX_FACTOR <= p < 1.0
      ensures d.values[0] < x && (Last(d.values) < x || 1.0 <= Cdf(d, x)) ==>
                IsBeforeDeparture(c.key.date, EarliestTime(c), RequestDateTime(c.key.date, Quantile(d, p)))
    {
      PassesIffBeforeDeadline(c.key.date, EarliestTime(c), Quantile(d, p));
      QuantileClamped(d, p);
      if d.values[0] < x <= Last(d.values) && d.cumulatives[0] <= p {
        QuantileIsRightInverse(d, x, p);
      }
    }
    if !(d.values[0] < x && (Last(d.values) < x || 1.0 <= Cdf(d, x))) {
      var p := if d.values[0] < x && 1.0 - MAX_FACTOR < Cdf(d, x) then Cdf(d, x) else 0.5;
      PassesIffBeforeDeadline(c.key.date, EarliestTime(c), Quantile(d, p));
      QuantileClamped(d, p);
      if d.values[0] < x {
        QuantileIsRightInverse(d, x, p);
      }
    }
  }

  /** A request of such a stream passes, whatever it draws. */
  lemma LandingRequestPasses(c: Configuration, s: State, preferredTime: int)
    requires IsOrdered(c, s) && Remaining(s) > 0 && LandsInTime(c) && EarliestTime(c) <= preferredTime
    ensures IsBeforeDeparture(c.key.date, preferredTime, NextOrderTime(c, s).1)
  {
    hide Quantile, NextOrderTime, RequestDateTime, DateOf, EarliestTime, IsConfigured;
    NextOrderTimeOutcome(c, s);
    GuardIsMonotone(c.key.date, EarliestTime(c), preferredTime, NextOrderTime(c, s).1);
  }

  /** The preferred time of a request is one that the stream can draw. */
  lemma RequestIsNotEarly(m: Method, c: Configuration, s: State, shared: real)
    requires IsReady(m, c, s) && StillHavingRequestsToBeGenerated(m, s)
    ensures EarliestTime(c) <= NextRequest(m, c, s, shared).1.preferredDepartureTime
  {
    hide NextTime, WTP, EarliestTime, PreferredTime, Supports, IsConsistent;
    RequestIsTimed(m, c, s, shared);
    var next := NextTime(m, c, AfterPointOfSale(s)).0;
    NoEarlierTime(c, c.characteristicsEngine.uniform(next.characteristicsPosition + 6));
  }

  /** Such a pattern delivers whatever is drawn, from any state of the stream. */
  lemma {:induction false} LandingPasses(c: Configuration, s: State, k: nat)
    requires IsReady(StatisticsOrder, c, s) && LandsInTime(c)
    ensures NextPass(StatisticsOrder, c, s, k)
    decreases k
  {
    if k > 0 && StillHavingRequestsToBeGenerated(StatisticsOrder, s) {
      RequestIsTimed(StatisticsOrder, c, s, 0.0);
      var (next, q) := NextRequest(StatisticsOrder, c, s, 0.0);
      LandingPasses(c, next, k - 1);
      hide Quantile, WTP, NextOrderTime, LandsInTime, EarliestTime, PreferredTime, IsBeforeDeparture, IsConfigured;
      RequestIsNotEarly(StatisticsOrder, c, s, 0.0);
      LandingRequestPasses(c, AfterPointOfSale(s), q.preferredDepartureTime);
    }
  }

  // ---------------------------------------------------------------- The other half

  /** The stream with other tapes of date-time draws and of demand-characteristics draws. */
  function With(c: Configuration, tape: Engine, characteristics: Engine): Configuration {
    c.(dateTimeEngine := tape, characteristicsEngine := characteristics)
  }

  /** A fresh stream delivers its total, for all draws. */
  ghost predicate AlwaysDelivers(c: Configuration, total: nat)
    requires IsConfigured(c)
  {
    forall tape, characteristics :: IsEngine(tape) && IsEngine(characteristics) ==>
      NextPass(StatisticsOrder, With(c, tape, characteristics), Fresh(total), total)
  }

  function ConstantEngine(u: real): Engine {
    Engine((k: nat) => u, (k: nat, rate: real) => 0.0, (k: nat, mean: real, deviation: real) => mean)
  }

  /** The draw that makes a fresh stream's first request fall on cumulative probability p. */
  function DrawFor(p: real, total: nat): real {
    1.0 - Pow(1.0 - p, total)
  }

  lemma DrawForIsDraw(p: real, total: nat)
    requires 0.0 <= p < 1.0
    ensures IsEngine(ConstantEngine(DrawFor(p, total)))
  {
    PowPositive(1.0 - p, total);
  }

  /** The stream that makes that draw, and draws the earliest preferred time. */
  function Adverse(c: Configuration, p: real, total: nat): Configuration {
    With(c, ConstantEngine(DrawFor(p, total)), ConstantEngine(0.0))
  }

  lemma FirstTimeAt(c: Configuration, p: real, total: nat)
    requires IsConfigured(c) && 1.0 - MAX_FACTOR <= p < 1.0 && 0 < total
    requires c.dateTimeEngine.uniform(0) == DrawFor(p, total)
    ensures Remaining(AfterPointOfSale(Fresh(total))) == total
    ensures NextOrderTime(c, AfterPointOfSale(Fresh(total))).1
            == RequestDateTime(c.key.date, Quantile(c.arrivalPattern, p))
  {
    hide Quantile, Pow;
    var s := AfterPointOfSale(Fresh(total));
    FactorIsRoot(c, s);
    PowReflectsOrder(OrderFactor(c, s), 1.0 - p, total);
    PowReflectsOrder(1.0 - p, OrderFactor(c, s), total);
    assert OrderFactor(c, s) == 1.0 - p;
    assert Shrink(1.0, 1.0 - p) == 1.0 - p;
  }

  /** The first request of that stream. */
  lemma FirstRequestAt(c: Configuration, p: real, total: nat)
    requires IsConfigured(c) && 1.0 - MAX_FACTOR <= p < 1.0 && 0 < total
    ensures IsReady(StatisticsOrder, Adverse(c, p, total), Fresh(total))
    ensures StillHavingRequestsToBeGenerated(StatisticsOrder, Fresh(total))
    ensures var q := NextRequest(StatisticsOrder, Adverse(c, p, total), Fresh(total), 0.0).1;
            && q.requestDateTime == RequestDateTime(c.key.date, Quantile(c.arrivalPattern, p))
            && q.preferredDepartureTime == EarliestTime(c) && q.departureDate == c.key.date
  {
    hide Quantile, WTP, NextOrderTime, DrawFor, Truncate;
    DrawForIsDraw(p, total);
    FirstTimeAt(Adverse(c, p, total), p, total);
  }

  /** The exact condition on a stream as its row describes it: whatever the total, it delivers it for
      all draws if and only if its pattern lands in time. */
  lemma DeliversIffLandsInTime(c: Configuration, total: nat)
    requires IsConfigured(c) && 0 < total
    ensures AlwaysDelivers(c, total) <==> LandsInTime(c)
  {
    hide Quantile, NextRequest, PreferredTime, IsBeforeDeparture, RequestDateTime;
    if LandsInTime(c) {
      forall tape, characteristics | IsEngine(tape) && IsEngine(characteristics)
        ensures NextPass(StatisticsOrder, With(c, tape, characteristics), Fresh(total), total)
      {
        SameTimes(c, With(c, tape, characteristics));
        LandingPasses(With(c, tape, characteristics), Fresh(total), total);
      }
    } else {
      var p :| 1.0 - MAX_FACTOR <= p < 1.0
               && !IsBeforeDeparture(c.key.date, EarliestTime(c),
                                     RequestDateTime(c.key.date, Quantile(c.arrivalPattern, p)));
      FirstRequestAt(c, p, total);
      DrawForIsDraw(p, total);
      assert !Passes(NextRequest(StatisticsOrder, Adverse(c, p, total), Fresh(total), 0.0).1);
      assert !NextPass(StatisticsOrder, Adverse(c, p, total), Fresh(total), total);
    }
  }

  lemma SameTimes(c: Configuration, c': Configuration)
    requires IsConfigured(c) && IsConfigured(c') && LandsInTime(c)
    requires c'.key == c.key && c'.arrivalPattern == c.arrivalPattern
    requires c'.preferredDepartureTime == c.preferredDepartureTime
    ensures LandsInTime(c')
  {
    assert EarliestTime(c') == EarliestTime(c);
  }
}

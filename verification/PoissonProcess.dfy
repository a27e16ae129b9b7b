/** Properties of one call, and of whole runs, of the Poisson generator of request date-times. */
module PoissonProcess {
  import opened ContinuousAttributeLite
  import opened DateTime
  import opened DemandStreamModel
  import opened RandomGeneration
  import opened RealArithmetic
  import opened Search

  const END := DEFAULT_LAST_LOWER_BOUND_ARRIVAL_PATTERN

  /** A stream that the Poisson generator can work on. */
  ghost predicate IsPoisson(c: Configuration, s: State) {
    IsConfigured(c) && IsPoissonPattern(c) && IsConsistent(PoissonProcess, c, s)
  }

  /** The call that produced s' emitted a request, and t is its date-time. */
  ghost predicate EmitsRequest(c: Configuration, s: State, s': State, t: int) {
    && s'.numberOfRequestsGeneratedSoFar == s.numberOfRequestsGeneratedSoFar + 1
    && s'.stillHavingRequestsToBeGenerated == s.stillHavingRequestsToBeGenerated
    && s'.dateTimeLastRequest < END
    && t == RequestDateTime(c.key.date, s'.dateTimeLastRequest)
  }

  /** The call ended the stream: t is the date-time after departure that says so. */
  ghost predicate EmitsSentinel(c: Configuration, s: State, s': State, t: int) {
    && s'.numberOfRequestsGeneratedSoFar == s.numberOfRequestsGeneratedSoFar
    && !s'.stillHavingRequestsToBeGenerated
    && s'.dateTimeLastRequest == END
    && t == RequestDateTime(c.key.date, 1.0)
  }

  /** For every sequence of draws one call ends, with a request or with the sentinel; the last time
      never goes back and stays between the first knot and the end of the walk. */
  lemma {:induction false} NextPoissonTimeOutcome(c: Configuration, s: State)
    requires IsPoisson(c, s)
    ensures var (s', t) := NextPoissonTime(c, s);
            && IsPoisson(c, s') && !s'.firstDateTimeRequest
            && PoissonStart(c, s).dateTimeLastRequest <= s'.dateTimeLastRequest
            && (EmitsRequest(c, s, s', t) || EmitsSentinel(c, s, s', t))
            && s'.totalNumberOfRequestsToBeGenerated == s.totalNumberOfRequestsToBeGenerated
            && s'.cumulativeProbabilitySoFar == s.cumulativeProbabilitySoFar
            && s'.characteristicsPosition == s.characteristicsPosition
    decreases s.firstDateTimeRequest, KnotsAbove(c, s)
  {
    hide DailyRate, UpperBound, Quantile, RequestDateTime, IsConfigured, IsPoissonPattern;
    StartIsConsistent(c, s);
    var s0 := PoissonStart(c, s);
    if s0.dateTimeLastRequest != END {
      TickIsConsistent(c, s0);
      var (next, isRequest) := PoissonTick(c, s0);
      if !isRequest {
        NextPoissonTimeOutcome(c, next);
      }
    }
  }

  // ---------------------------------------------------------------- Conservation of demand

  /** The daily rate looked up at a time, kept up for the days advanced from it. */
  ghost function TickDemand(c: Configuration, last: real, next: real): real
    requires OnSegment(c.arrivalPattern, last)
  {
    Scaled(next - last, DailyRate(c, last))
  }

  /** The demand that a call consumes: over the intervals it walks, the daily rate it looks up
      times the days it advances. */
  ghost function ConsumedDemand(c: Configuration, s: State): real
    requires IsPoisson(c, s)
    decreases s.firstDateTimeRequest, KnotsAbove(c, s)
  {
    StartIsConsistent(c, s);
    var s := PoissonStart(c, s);
    if s.dateTimeLastRequest == END then 0.0
    else
      TickIsConsistent(c, s);
      var (next, isRequest) := PoissonTick(c, s);
      var demand := TickDemand(c, s.dateTimeLastRequest, next.dateTimeLastRequest);
      if isRequest then demand else demand + ConsumedDemand(c, next)
  }

  /** The demand expected up to a time of the arrival pattern. */
  ghost function DemandUpTo(c: Configuration, x: real): real
    requires IsConfigured(c)
  {
    c.mean * Cdf(c.arrivalPattern, x)
  }

  lemma TickConsumesExpectedDemand(c: Configuration, last: real, next: real)
    requires IsConfigured(c) && OnSegment(c.arrivalPattern, last)
    requires last <= next <= UpperBound(c.arrivalPattern, last)
    ensures TickDemand(c, last, next) == DemandUpTo(c, next) - DemandUpTo(c, last)
  {
    hide Cdf, Slope, UpperBound;
    SlopeUpToUpperBound(c.arrivalPattern, last, next);
    ScaledDifference(c.mean, Slope(c.arrivalPattern, last), next - last,
                     Cdf(c.arrivalPattern, last), Cdf(c.arrivalPattern, next));
  }

  lemma ScaledDifference(mean: real, slope: real, days: real, from: real, to: real)
    requires to - from == slope * days
    ensures Scaled(days, Scaled(slope, mean)) == mean * to - mean * from
  {
    assert Scaled(days, Scaled(slope, mean)) == slope * mean * days;
    Regroup(mean, days, slope);
    MulEqual(mean, slope * days, to - from);
    Distribute(mean, to, from);
  }

  /** Whatever is drawn, a call consumes exactly the demand that the pattern expects between the
      last time before it and the last time after it. */
  lemma {:induction false} CallConsumesExpectedDemand(c: Configuration, s: State)
    requires IsPoisson(c, s)
    ensures ConsumedDemand(c, s) == DemandUpTo(c, NextPoissonTime(c, s).0.dateTimeLastRequest)
                                    - DemandUpTo(c, PoissonStart(c, s).dateTimeLastRequest)
    decreases s.firstDateTimeRequest, KnotsAbove(c, s)
  {
    hide DemandUpTo, TickDemand, DailyRate, UpperBound, Quantile, RequestDateTime;
    StartIsConsistent(c, s);
    var s0 := PoissonStart(c, s);
    if s0.dateTimeLastRequest != END {
      TickIsConsistent(c, s0);
      var (next, isRequest) := PoissonTick(c, s0);
      TickConsumesExpectedDemand(c, s0.dateTimeLastRequest, next.dateTimeLastRequest);
      if !isRequest {
        CallConsumesExpectedDemand(c, next);
      }
    }
  }

  /** The state after at most k calls; the stream is not called again after its sentinel. */
  ghost function AfterCalls(c: Configuration, s: State, k: nat): (r: State)
    requires IsPoisson(c, s)
    ensures IsPoisson(c, r)
    decreases k
  {
    if k == 0 || !s.stillHavingRequestsToBeGenerated then s
    else
      NextPoissonTimeOutcome(c, s);
      AfterCalls(c, NextPoissonTime(c, s).0, k - 1)
  }

  /** Over all calls of a run the last time never goes back. */
  lemma {:induction false} LastTimeNeverGoesBack(c: Configuration, s: State, j: nat, k: nat)
    requires IsPoisson(c, s) && !s.firstDateTimeRequest && j <= k
    ensures !AfterCalls(c, s, k).firstDateTimeRequest
    ensures s.dateTimeLastRequest <= AfterCalls(c, s, j).dateTimeLastRequest <= AfterCalls(c, s, k).dateTimeLastRequest
            <= END
    decreases k
  {
    hide NextPoissonTime;
    if k > 0 && s.stillHavingRequestsToBeGenerated {
      NextPoissonTimeOutcome(c, s);
      LastTimeNeverGoesBack(c, NextPoissonTime(c, s).0, if j == 0 then 0 else j - 1, k - 1);
    }
  }

  ghost function ConsumedByCalls(c: Configuration, s: State, k: nat): real
    requires IsPoisson(c, s)
    decreases k
  {
    if k == 0 || !s.stillHavingRequestsToBeGenerated then 0.0
    else
      NextPoissonTimeOutcome(c, s);
      ConsumedDemand(c, s) + ConsumedByCalls(c, NextPoissonTime(c, s).0, k - 1)
  }

  lemma {:induction false} CallsConsumeExpectedDemand(c: Configuration, s: State, k: nat)
    requires IsPoisson(c, s) && s.stillHavingRequestsToBeGenerated && k > 0
    ensures ConsumedByCalls(c, s, k) == DemandUpTo(c, AfterCalls(c, s, k).dateTimeLastRequest)
                                        - DemandUpTo(c, PoissonStart(c, s).dateTimeLastRequest)
    ensures !AfterCalls(c, s, k).stillHavingRequestsToBeGenerated ==> AfterCalls(c, s, k).dateTimeLastRequest == END
    decreases k
  {
    hide NextPoissonTime, ConsumedDemand, DemandUpTo, IsConfigured, IsPoissonPattern, Quantile;
    NextPoissonTimeOutcome(c, s);
    CallConsumesExpectedDemand(c, s);
    var s' := NextPoissonTime(c, s).0;
    if k > 1 && s'.stillHavingRequestsToBeGenerated {
      CallsConsumeExpectedDemand(c, s', k - 1);
    } else {
      assert AfterCalls(c, s', k - 1) == s' && ConsumedByCalls(c, s', k - 1) == 0.0;
      assert AfterCalls(c, s, k) == s' && ConsumedByCalls(c, s, k) == ConsumedDemand(c, s);
    }
  }

  /** Every complete run, whatever it draws, consumes exactly the demand that the arrival pattern
      promises from its first knot to the end of the walk: mean x (F(-1) - F(v0)). */
  lemma CompleteRunConservesDemand(c: Configuration, s: State, k: nat)
    requires IsPoisson(c, s) && s.stillHavingRequestsToBeGenerated && s.firstDateTimeRequest
    requires !AfterCalls(c, s, k).stillHavingRequestsToBeGenerated
    ensures ConsumedByCalls(c, s, k) == DemandUpTo(c, END) - DemandUpTo(c, c.arrivalPattern.values[0])
  {
    hide DemandUpTo, Quantile;
    PatternStart(c);
    CallsConsumeExpectedDemand(c, s, k);
  }

  // ---------------------------------------------------------------- What the draws mean

  /** The demand expected from last to the end of its interval. */
  ghost function DemandLeft(c: Configuration, last: real): real
    requires IsConfigured(c) && OnSegment(c.arrivalPattern, last)
  {
    DemandUpTo(c, UpperBound(c.arrivalPattern, last)) - DemandUpTo(c, last)
  }

  lemma ScaledCommutes(x: real, factor: real)
    ensures Scaled(x, factor) == factor * x == Scaled(factor, x)
  {
  }

  lemma ScaledStrictly(factor: real, a: real, b: real)
    requires 0.0 < factor && a < b
    ensures Scaled(a, factor) < Scaled(b, factor)
  {
    hide Scaled;
    MulStrict(factor, a, b);
    ScaledCommutes(a, factor);
    ScaledCommutes(b, factor);
  }

  lemma RateIsUnique(days: real, r: real, rate: real)
    requires 0.0 < days && Scaled(days, r) == Scaled(days, rate)
    ensures r == rate
  {
    hide Scaled;
    ScaledCommutes(days, r);
    ScaledCommutes(days, rate);
    if r < rate { ScaledStrictly(days, r, rate); }
    if rate < r { ScaledStrictly(days, rate, r); }
  }

  /** Whatever the engine, one draw is taken, and at the rate that spreads the demand left in the
      interval over its days; it is a request if it falls inside the interval. */
  lemma TickDrawsAtRateOfInterval(c: Configuration, s: State, rate: real)
    requires IsPoisson(c, s) && OnSegment(c.arrivalPattern, s.dateTimeLastRequest)
    requires Scaled(UpperBound(c.arrivalPattern, s.dateTimeLastRequest) - s.dateTimeLastRequest, rate)
             == DemandLeft(c, s.dateTimeLastRequest)
    ensures var (next, isRequest) := PoissonTick(c, s);
            var last, bound := s.dateTimeLastRequest, UpperBound(c.arrivalPattern, s.dateTimeLastRequest);
            var time := last + c.dateTimeEngine.exponential(s.dateTimePosition, rate);
            && next.dateTimePosition == s.dateTimePosition + 1
            && (isRequest <==> time < bound)
            && next.dateTimeLastRequest == if isRequest then time else bound
  {
    hide Cdf, UpperBound, DemandUpTo, DailyRate, Scaled, IsConfigured, IsPoissonPattern;
    var last, bound := s.dateTimeLastRequest, UpperBound(c.arrivalPattern, s.dateTimeLastRequest);
    UpperBoundIsKnot(c.arrivalPattern, last);
    TickConsumesExpectedDemand(c, last, bound);
    RateIsUnique(bound - last, rate, DailyRate(c, last));
  }

  /** The exponential draws of the engine are those of rate one divided by the rate. */
  ghost predicate ScalesUnit(e: Engine, unit: nat -> real) {
    forall k, rate :: 0.0 < rate ==> Scaled(e.exponential(k, rate), rate) == unit(k)
  }

  lemma SplitInterval(rate: real, draw: real, days: real)
    requires 0.0 < rate
    ensures draw < days <==> Scaled(draw, rate) < Scaled(days, rate)
  {
    hide Scaled;
    if draw < days { ScaledStrictly(rate, draw, days); }
    if days < draw { ScaledStrictly(rate, days, draw); }
  }

  /** On the scale of expected demand the draws are the unit draws: a tick emits a request exactly if
      its unit draw is less than the demand left in the interval, and then the request lies where the
      expected demand since the last time equals the unit draw. */
  lemma TickFollowsUnitDraw(c: Configuration, s: State, unit: nat -> real)
    requires IsPoisson(c, s) && OnSegment(c.arrivalPattern, s.dateTimeLastRequest)
    requires ScalesUnit(c.dateTimeEngine, unit)
    ensures var (next, isRequest) := PoissonTick(c, s);
            var last := s.dateTimeLastRequest;
            && next.dateTimePosition == s.dateTimePosition + 1
            && (isRequest <==> unit(s.dateTimePosition) < DemandLeft(c, last))
            && (isRequest ==>
                  DemandUpTo(c, next.dateTimeLastRequest) - DemandUpTo(c, last) == unit(s.dateTimePosition))
            && (!isRequest ==> next.dateTimeLastRequest == UpperBound(c.arrivalPattern, last))
  {
    hide Cdf, UpperBound, DemandUpTo, DailyRate, Scaled, IsConfigured, IsPoissonPattern;
    var last, bound := s.dateTimeLastRequest, UpperBound(c.arrivalPattern, s.dateTimeLastRequest);
    var rate := DailyRate(c, last);
    var draw := c.dateTimeEngine.exponential(s.dateTimePosition, rate);
    DailyRatePositive(c, last);
    UpperBoundIsKnot(c.arrivalPattern, last);
    TickConsumesExpectedDemand(c, last, bound);
    SplitInterval(rate, draw, bound - last);
    if draw < bound - last {
      assert 0.0 <= draw by { DrawIsNotNegative(c, s.dateTimePosition, rate); }
      TickConsumesExpectedDemand(c, last, last + draw);
      assert last + draw - last == draw;
    }
  }

  lemma DrawIsNotNegative(c: Configuration, k: nat, rate: real)
    requires IsConfigured(c) && 0.0 < rate
    ensures 0.0 <= c.dateTimeEngine.exponential(k, rate)
  {
  }

  /** The interval that a time is in: the index of the knot that ends it. */
  function IntervalOf(c: Configuration, x: real): nat {
    FirstAbove(c.arrivalPattern.values, x)
  }

  /** Where the walk enters the j-th interval from the one that last is in. */
  function EntryOf(c: Configuration, last: real, j: nat): real
    requires IntervalOf(c, last) + j <= |c.arrivalPattern.values|
  {
    if j == 0 then last else c.arrivalPattern.values[IntervalOf(c, last) + j - 1]
  }

  /** From last, and the unit draws from a position on, the walk comes to x: every interval that it
      crosses has no more demand left than its unit draw, and a request lies where the expected demand
      since the entry into its interval equals the unit draw. */
  ghost predicate Walks(c: Configuration, unit: nat -> real, position: nat, last: real, x: real, isRequest: bool)
    requires IsConfigured(c)
  {
    var crossed := IntervalOf(c, x) - IntervalOf(c, last);
    && 0 <= crossed
    && (forall j :: 0 <= j < crossed ==>
          DemandUpTo(c, EntryOf(c, last, j + 1)) - DemandUpTo(c, EntryOf(c, last, j)) <= unit(position + j))
    && (isRequest ==> DemandUpTo(c, x) - DemandUpTo(c, EntryOf(c, last, crossed)) == unit(position + crossed))
  }

  lemma StaysInInterval(c: Configuration, last: real, x: real)
    requires IsConfigured(c) && OnSegment(c.arrivalPattern, last)
    requires last <= x <= UpperBound(c.arrivalPattern, last)
    ensures UpperBound(c.arrivalPattern, last) == EntryOf(c, last, 1)
    ensures IntervalOf(c, x)
            == if x < UpperBound(c.arrivalPattern, last) then IntervalOf(c, last) else IntervalOf(c, last) + 1
  {
    SegmentIndex(c.arrivalPattern, last);
    var i, values := IntervalOf(c, last), c.arrivalPattern.values;
    assert forall k :: 0 <= k < i ==> values[k] <= last;
    assert forall k :: 0 <= k < i ==> values[k] < values[i];
    assert i + 1 < |values| ==> values[i] < values[i + 1];
    FirstAboveIsUnique(values, x, if x < values[i] then i else i + 1);
  }

  lemma WalkGoesOn(c: Configuration, unit: nat -> real, position: nat, last: real, bound: real, x: real,
                   isRequest: bool)
    requires IsConfigured(c) && IntervalOf(c, bound) == IntervalOf(c, last) + 1
    requires bound == EntryOf(c, last, 1)
    requires DemandUpTo(c, bound) - DemandUpTo(c, last) <= unit(position)
    requires Walks(c, unit, position + 1, bound, x, isRequest)
    ensures Walks(c, unit, position, last, x, isRequest)
  {
    hide DemandUpTo, IsConfigured, FirstAbove;
    var crossed := IntervalOf(c, x) - IntervalOf(c, last);
    assert forall j :: 1 <= j <= crossed ==> EntryOf(c, last, j) == EntryOf(c, bound, j - 1);
    forall j | 0 <= j < crossed
      ensures DemandUpTo(c, EntryOf(c, last, j + 1)) - DemandUpTo(c, EntryOf(c, last, j)) <= unit(position + j)
    {
      if j > 0 {
        var i := j - 1;
        assert DemandUpTo(c, EntryOf(c, bound, i + 1)) - DemandUpTo(c, EntryOf(c, bound, i)) <= unit(position + 1 + i);
      }
    }
    assert position + 1 + (crossed - 1) == position + crossed;
  }

  /** A whole call follows the tape: it takes one unit draw for each interval that it crosses and one
      for the request, and these draws decide where it comes to. */
  lemma {:induction false} CallFollowsTape(c: Configuration, s: State, unit: nat -> real)
    requires IsPoisson(c, s) && ScalesUnit(c.dateTimeEngine, unit)
    ensures IsPoisson(c, NextPoissonTime(c, s).0)
    ensures var last, s' := PoissonStart(c, s).dateTimeLastRequest, NextPoissonTime(c, s).0;
            var isRequest := s'.numberOfRequestsGeneratedSoFar > s.numberOfRequestsGeneratedSoFar;
            && Walks(c, unit, s.dateTimePosition, last, s'.dateTimeLastRequest, isRequest)
            && s'.dateTimePosition == s.dateTimePosition
                 + (IntervalOf(c, s'.dateTimeLastRequest) - IntervalOf(c, last)) + (if isRequest then 1 else 0)
    decreases s.firstDateTimeRequest, KnotsAbove(c, s)
  {
    hide DemandUpTo, Quantile, UpperBound, Slope, IsConfigured, IsPoissonPattern, FirstAbove, PoissonTick, ScalesUnit,
         RequestDateTime, Walks;
    NextPoissonTimeOutcome(c, s);
    StartIsConsistent(c, s);
    var s0 := PoissonStart(c, s);
    var last := s0.dateTimeLastRequest;
    if last == END {
      StandsStill(c, unit, s.dateTimePosition, last);
    } else {
      TickIsConsistent(c, s0);
      TickFollowsUnitDraw(c, s0, unit);
      TickCounts(c, s0);
      var (next, isRequest) := PoissonTick(c, s0);
      StaysInInterval(c, last, next.dateTimeLastRequest);
      if isRequest {
        WalksToRequest(c, unit, s.dateTimePosition, last, next.dateTimeLastRequest);
      } else {
        NextPoissonTimeOutcome(c, next);
        CallFollowsTape(c, next, unit);
        WalkGoesOn(c, unit, s.dateTimePosition, last, next.dateTimeLastRequest,
                   NextPoissonTime(c, next).0.dateTimeLastRequest,
                   NextPoissonTime(c, next).0.numberOfRequestsGeneratedSoFar > next.numberOfRequestsGeneratedSoFar);
      }
    }
  }

  lemma TickCounts(c: Configuration, s: State)
    requires OnSegment(c.arrivalPattern, s.dateTimeLastRequest)
    ensures var (next, isRequest) := PoissonTick(c, s);
            next.numberOfRequestsGeneratedSoFar == s.numberOfRequestsGeneratedSoFar + if isRequest then 1 else 0
  {
    hide UpperBound, DailyRate;
  }

  lemma StandsStill(c: Configuration, unit: nat -> real, position: nat, x: real)
    requires IsConfigured(c)
    ensures Walks(c, unit, position, x, x, false)
  {
  }

  lemma WalksToRequest(c: Configuration, unit: nat -> real, position: nat, last: real, x: real)
    requires IsConfigured(c) && IntervalOf(c, x) == IntervalOf(c, last)
    requires DemandUpTo(c, x) - DemandUpTo(c, last) == unit(position)
    ensures Walks(c, unit, position, last, x, true)
  {
  }

  // ---------------------------------------------------------------- Number of requests

  /** Every exponential draw at a rate that the walk looks up advances it by at least delta. */
  ghost predicate DrawsAtLeast(c: Configuration, delta: real) {
    && 0.0 < delta
    && forall k: nat, x: real :: OnSegment(c.arrivalPattern, x) && x < END ==>
         delta <= c.dateTimeEngine.exponential(k, DailyRate(c, x))
  }

  /** Days between the first knot and the end of the walk. */
  function Horizon(c: Configuration): real
    requires IsConfigured(c)
  {
    END - c.arrivalPattern.values[0]
  }

  /** The days that n requests take when they are delta apart. */
  function Spread(n: int, delta: real): real {
    n as real * delta
  }

  /** The requests emitted so far are spread over the time walked, delta apart or more. */
  ghost predicate IsSpaced(c: Configuration, delta: real, s: State)
    requires IsConfigured(c)
  {
    var spread := Spread(s.numberOfRequestsGeneratedSoFar, delta);
    && (s.firstDateTimeRequest ==> s.numberOfRequestsGeneratedSoFar == 0)
    && (!s.firstDateTimeRequest ==> spread <= s.dateTimeLastRequest - c.arrivalPattern.values[0])
    && (s.numberOfRequestsGeneratedSoFar > 0 ==> spread < Horizon(c))
  }

  lemma OneMore(n: int, delta: real)
    ensures Spread(n + 1, delta) == Spread(n, delta) + delta
    ensures Spread(0, delta) == 0.0
  {
  }

  lemma TickKeepsSpaced(c: Configuration, delta: real, s: State)
    requires IsPoisson(c, s) && DrawsAtLeast(c, delta) && IsSpaced(c, delta, s)
    requires !s.firstDateTimeRequest && s.dateTimeLastRequest != END
    ensures OnSegment(c.arrivalPattern, s.dateTimeLastRequest) && IsSpaced(c, delta, PoissonTick(c, s).0)
  {
    hide Spread, DailyRate, UpperBound;
    TickIsConsistent(c, s);
    var n, next := s.numberOfRequestsGeneratedSoFar, PoissonTick(c, s).0;
    OneMore(n, delta);
    assert PoissonTick(c, s).1 ==> s.dateTimeLastRequest + delta <= next.dateTimeLastRequest;
  }

  lemma {:induction false} CallKeepsSpaced(c: Configuration, delta: real, s: State)
    requires IsPoisson(c, s) && DrawsAtLeast(c, delta) && IsSpaced(c, delta, s)
    ensures IsSpaced(c, delta, NextPoissonTime(c, s).0)
    decreases s.firstDateTimeRequest, KnotsAbove(c, s)
  {
    PatternStart(c);
    StartIsConsistent(c, s);
    var s0 := PoissonStart(c, s);
    OneMore(0, delta);
    if s0.dateTimeLastRequest != END {
      TickIsConsistent(c, s0);
      TickKeepsSpaced(c, delta, s0);
      var (next, isRequest) := PoissonTick(c, s0);
      if !isRequest {
        CallKeepsSpaced(c, delta, next);
      }
    }
  }

  /** A bound on the number of requests of a stream whose draws are delta or more. */
  ghost function RequestBound(c: Configuration, delta: real): nat
    requires IsConfigured(c) && IsPoissonPattern(c) && 0.0 < delta
  {
    PatternStart(c);
    QuotientNonNegative(Horizon(c), delta);
    (Horizon(c) / delta).Floor
  }

  lemma QuotientNonNegative(x: real, y: real)
    requires 0.0 <= x && 0.0 < y
    ensures 0.0 <= x / y
  {
    var q := x / y;
    assert q * y == x;
    if q < 0.0 { MulStrict(y, q, 0.0); }
  }

  lemma BoundByQuotient(n: int, delta: real, horizon: real)
    requires 0.0 < delta && Spread(n, delta) < horizon
    ensures n as real < horizon / delta
    ensures n <= (horizon / delta).Floor
  {
    var q := horizon / delta;
    assert delta * q == horizon;
    if q <= n as real { MulMonotone(delta, q, n as real); }
  }

  lemma SpacedIsBounded(c: Configuration, delta: real, s: State)
    requires IsPoisson(c, s) && 0.0 < delta && IsSpaced(c, delta, s)
    ensures s.numberOfRequestsGeneratedSoFar <= RequestBound(c, delta)
    ensures s.numberOfRequestsGeneratedSoFar > 0 ==> s.numberOfRequestsGeneratedSoFar as real < Horizon(c) / delta
  {
    hide Spread;
    if s.numberOfRequestsGeneratedSoFar > 0 {
      BoundByQuotient(s.numberOfRequestsGeneratedSoFar, delta, Horizon(c));
    }
  }

  lemma BoundIsPositive(c: Configuration, delta: real)
    requires DrawsAtLeast(c, delta)
    ensures 0.0 < delta
  {
  }

  /** A freshly initialised stream whose exponential draws are all at least delta emits its
      sentinel after fewer than (-1 - v0) / delta requests (none when v0 is -1), and so within that
      many calls plus one. */
  lemma {:induction false} RunIsBounded(c: Configuration, delta: real, s: State, k: nat)
    requires IsPoisson(c, s) && DrawsAtLeast(c, delta) && IsSpaced(c, delta, s)
    ensures IsSpaced(c, delta, AfterCalls(c, s, k))
    ensures AfterCalls(c, s, k).numberOfRequestsGeneratedSoFar <= RequestBound(c, delta)
    ensures AfterCalls(c, s, k).stillHavingRequestsToBeGenerated ==>
              AfterCalls(c, s, k).numberOfRequestsGeneratedSoFar == s.numberOfRequestsGeneratedSoFar + k
    ensures k > RequestBound(c, delta) ==> !AfterCalls(c, s, k).stillHavingRequestsToBeGenerated
    decreases k
  {
    hide NextPoissonTime, IsConfigured, IsPoissonPattern, DrawsAtLeast, IsSpaced, RequestBound;
    assert 0.0 < delta by { BoundIsPositive(c, delta); }
    if k == 0 || !s.stillHavingRequestsToBeGenerated {
      SpacedIsBounded(c, delta, s);
    } else {
      NextPoissonTimeOutcome(c, s);
      CallKeepsSpaced(c, delta, s);
      RunIsBounded(c, delta, NextPoissonTime(c, s).0, k - 1);
    }
  }
}

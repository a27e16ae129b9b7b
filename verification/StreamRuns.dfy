/** Properties of a stream that hold under either method, over whole runs. */
module StreamRuns {
  import opened ContinuousAttributeLite
  import opened DateTime
  import opened DemandStreamModel
  import opened OrderStatistics
  import opened PoissonProcess
  import opened RandomGeneration
  import opened RealArithmetic
  import opened Search

  ghost predicate IsReady(m: Method, c: Configuration, s: State) {
    IsConfigured(c) && Supports(m, c) && IsConsistent(m, c, s)
  }

  /** The time, in days from departure, that the state of a stream stands for: that of its last
      request, or the earliest one possible when there is none. */
  function CurrentOffset(m: Method, c: Configuration, s: State): real
    requires IsConfigured(c)
  {
    if m.StatisticsOrder? then Quantile(c.arrivalPattern, s.cumulativeProbabilitySoFar)
    else if s.firstDateTimeRequest then c.arrivalPattern.values[0]
    else s.dateTimeLastRequest
  }

  function CurrentDateTime(m: Method, c: Configuration, s: State): int
    requires IsConfigured(c)
  {
    RequestDateTime(c.key.date, CurrentOffset(m, c, s))
  }

  /** A call of either generator gives a date-time that is not before the one the state stood for.
      It is the date-time that the new state stands for, unless it is the sentinel of a Poisson
      stream, which ends the stream and leaves its counter alone. */
  lemma NextTimeOutcome(m: Method, c: Configuration, s: State)
    requires IsReady(m, c, s) && StillHavingRequestsToBeGenerated(m, s)
    ensures var (s', t) := NextTime(m, c, s);
            && IsReady(m, c, s')
            && s'.totalNumberOfRequestsToBeGenerated == s.totalNumberOfRequestsToBeGenerated
            && CurrentDateTime(m, c, s) <= CurrentDateTime(m, c, s')
            && CurrentDateTime(m, c, s) <= t
            && (m.PoissonProcess? && !s'.stillHavingRequestsToBeGenerated ==>
                  && s'.numberOfRequestsGeneratedSoFar == s.numberOfRequestsGeneratedSoFar
                  && t == RequestDateTime(c.key.date, 1.0))
            && (m.PoissonProcess? && s'.stillHavingRequestsToBeGenerated ==>
                  !s'.firstDateTimeRequest && s'.dateTimeLastRequest < END)
            && (m.StatisticsOrder? || s'.stillHavingRequestsToBeGenerated ==>
                  && s'.numberOfRequestsGeneratedSoFar == s.numberOfRequestsGeneratedSoFar + 1
                  && t == CurrentDateTime(m, c, s'))
  {
    if m.PoissonProcess? {
      NextPoissonTimeOutcome(c, s);
      PatternStart(c);
      var s' := NextPoissonTime(c, s).0;
      var last := PoissonStart(c, s).dateTimeLastRequest;
      ConversionMonotone(last, s'.dateTimeLastRequest);
      ConversionMonotone(last, 1.0);
    } else {
      NextOrderTimeOutcome(c, s);
    }
  }

  /** A whole number of milliseconds. */
  function Millisecond(days: real): int {
    (DAY as real * days).Floor
  }

  ghost predicate IsSentinel(m: Method, s': State) {
    m.PoissonProcess? && !s'.stillHavingRequestsToBeGenerated
  }

  /** A call gives a strictly later date-time exactly if it ends the stream or its request falls
      into a later millisecond than the one before. */
  lemma StrictlyLaterIff(m: Method, c: Configuration, s: State)
    requires IsReady(m, c, s) && StillHavingRequestsToBeGenerated(m, s)
    ensures var (s', t) := NextTime(m, c, s);
            CurrentDateTime(m, c, s) < t <==>
            IsSentinel(m, s') || Millisecond(CurrentOffset(m, c, s)) < Millisecond(CurrentOffset(m, c, s'))
  {
    hide NextTime, Quantile, IsConfigured, IsPoissonPattern;
    NextTimeOutcome(m, c, s);
    var s' := NextTime(m, c, s).0;
    ConversionIsFloorPlusOne(CurrentOffset(m, c, s));
    if IsSentinel(m, s') {
      PatternStart(c);
      ConversionMonotone(CurrentOffset(m, c, s), -1.0);
      ConversionIsFloorPlusOne(-1.0);
      ConversionIsFloorPlusOne(1.0);
    } else {
      ConversionIsFloorPlusOne(CurrentOffset(m, c, s'));
    }
  }

  /** Of two successive requests the second is strictly later exactly if it is the sentinel or falls
      into a later millisecond: the millisecond that is added does not separate them. */
  lemma SuccessiveRequestsSeparateIff(m: Method, c: Configuration, s: State)
    requires IsReady(m, c, s) && StillHavingRequestsToBeGenerated(m, s)
    ensures var (s', t) := NextTime(m, c, s);
            IsReady(m, c, s') &&
            (StillHavingRequestsToBeGenerated(m, s') ==>
              var (s'', t') := NextTime(m, c, s');
              t < t' <==>
              IsSentinel(m, s'') || Millisecond(CurrentOffset(m, c, s')) < Millisecond(CurrentOffset(m, c, s'')))
  {
    hide NextTime, CurrentDateTime, CurrentOffset, IsConfigured, Supports, IsConsistent;
    NextTimeOutcome(m, c, s);
    var s' := NextTime(m, c, s).0;
    if StillHavingRequestsToBeGenerated(m, s') {
      StrictlyLaterIff(m, c, s');
    }
  }

  const QUARTER_MILLISECOND := 0.25 / 86_400_000.0

  /** A Poisson stream whose exponential draws are a quarter of a millisecond: its first two requests
      carry the same date-time. */
  lemma SuccessiveRequestsCanCoincide(c: Configuration)
    requires IsConfigured(c) && 0.0 < c.mean
    ensures var engine := Engine((k: nat) => 0.5, (k: nat, rate: real) => QUARTER_MILLISECOND,
                                 (k: nat, mean: real, deviation: real) => mean);
            var c' := c.(arrivalPattern := Distribution([-2.0, -1.0], [0.0, 1.0]), dateTimeEngine := engine);
            && IsReady(Method.PoissonProcess, c', Fresh(2))
            && |Stamps(Method.PoissonProcess, c', Fresh(2), 2)| == 2
            && Stamps(Method.PoissonProcess, c', Fresh(2), 2)[0] == Stamps(Method.PoissonProcess, c', Fresh(2), 2)[1]
  {
    var engine := Engine((k: nat) => 0.5, (k: nat, rate: real) => QUARTER_MILLISECOND,
                         (k: nat, mean: real, deviation: real) => mean);
    var d := Distribution([-2.0, -1.0], [0.0, 1.0]);
    var c' := c.(arrivalPattern := d, dateTimeEngine := engine);
    assert d.values[1] == END;
    assert IsReady(Method.PoissonProcess, c', Fresh(2));
    PatternStart(c');
    var s1 := NextPoissonTime(c', Fresh(2)).0;
    UpperBoundOfTwoKnots(d, -2.0);
    assert s1.dateTimeLastRequest == -2.0 + QUARTER_MILLISECOND && !s1.firstDateTimeRequest;
    NextPoissonTimeOutcome(c', Fresh(2));
    UpperBoundOfTwoKnots(d, s1.dateTimeLastRequest);
    var s2 := NextPoissonTime(c', s1).0;
    assert s2.dateTimeLastRequest == -2.0 + 2.0 * QUARTER_MILLISECOND;
    SuccessiveRequestsSeparateIff(Method.PoissonProcess, c', Fresh(2));
    StampsNeverDecrease(Method.PoissonProcess, c', Fresh(2), 2);
  }

  lemma UpperBoundOfTwoKnots(d: Distribution, x: real)
    requires d == Distribution([-2.0, -1.0], [0.0, 1.0]) && -2.0 <= x < -1.0
    ensures OnSegment(d, x) && UpperBound(d, x) == -1.0
  {
    FirstAboveIsUnique(d.values, x, 1);
  }

  /** The date-times of at most k successive requests, the sentinel of a Poisson stream included. */
  function Stamps(m: Method, c: Configuration, s: State, k: nat): seq<int>
    requires IsReady(m, c, s)
    decreases k
  {
    if k == 0 || !StillHavingRequestsToBeGenerated(m, s) then []
    else
      NextTimeOutcome(m, c, s);
      var (s', t) := NextTime(m, c, s);
      [t] + Stamps(m, c, s', k - 1)
  }

  ghost predicate NeverDecreases(s: seq<int>) {
    forall i, j :: 0 <= i < j < |s| ==> s[i] <= s[j]
  }

  /** Over the whole run of a stream, under either method and for every sequence of draws, request
      date-times never decrease, the sentinel included. */
  lemma {:induction false} StampsNeverDecrease(m: Method, c: Configuration, s: State, k: nat)
    requires IsReady(m, c, s)
    ensures NeverDecreases(Stamps(m, c, s, k))
    ensures forall i :: 0 <= i < |Stamps(m, c, s, k)| ==> CurrentDateTime(m, c, s) <= Stamps(m, c, s, k)[i]
    decreases k
  {
    if k > 0 && StillHavingRequestsToBeGenerated(m, s) {
      NextTimeOutcome(m, c, s);
      var (s', t) := NextTime(m, c, s);
      var rest := Stamps(m, c, s', k - 1);
      StampsNeverDecrease(m, c, s', k - 1);
      if m.PoissonProcess? && !s'.stillHavingRequestsToBeGenerated {
        assert rest == [];
      }
      assert Stamps(m, c, s, k) == [t] + rest;
    }
  }

  // ---------------------------------------------------------------- Ends

  /** The stream gives at most n date-times, the sentinel included. */
  ghost predicate EndsWithin(m: Method, c: Configuration, s: State, n: nat)
    requires IsReady(m, c, s)
  {
    |Stamps(m, c, s, n + 1)| <= n
  }

  lemma {:induction false} EndedStamps(m: Method, c: Configuration, s: State, n: nat, k: nat)
    requires IsReady(m, c, s) && EndsWithin(m, c, s, n)
    ensures |Stamps(m, c, s, k)| <= n
    decreases n
  {
    hide NextTime, IsConfigured, Supports, IsConsistent;
    if k > 0 && StillHavingRequestsToBeGenerated(m, s) {
      NextTimeOutcome(m, c, s);
      EndedStamps(m, c, NextTime(m, c, s).0, n - 1, k - 1);
    }
  }

  /** Under order statistics a stream ends with its total. */
  lemma {:induction false} OrderStreamEnds(c: Configuration, s: State, n: nat)
    requires IsReady(StatisticsOrder, c, s) && Remaining(s) <= n
    ensures EndsWithin(StatisticsOrder, c, s, n)
    decreases n
  {
    hide NextTime, IsConfigured, IsConsistent;
    if 0 < Remaining(s) {
      NextTimeOutcome(StatisticsOrder, c, s);
      OrderStreamEnds(c, NextTime(StatisticsOrder, c, s).0, n - 1);
    }
  }

  /** A Poisson stream that has sent its sentinel after n calls gives no more. */
  lemma {:induction false} SentinelEnds(c: Configuration, s: State, n: nat)
    requires IsPoisson(c, s) && !AfterCalls(c, s, n).stillHavingRequestsToBeGenerated
    ensures EndsWithin(Method.PoissonProcess, c, s, n)
    decreases n
  {
    hide NextPoissonTime, IsConfigured, IsPoissonPattern;
    if s.stillHavingRequestsToBeGenerated {
      NextTimeOutcome(Method.PoissonProcess, c, s);
      SentinelEnds(c, NextPoissonTime(c, s).0, n - 1);
    }
  }

  /** A Poisson stream that starts where the engine of its date-times stands at a position. */
  function FreshAt(position: nat): State {
    Fresh(0).(dateTimePosition := position)
  }

  ghost predicate EndsFrom(c: Configuration, position: nat)
    requires IsConfigured(c) && IsPoissonPattern(c)
  {
    exists n: nat :: EndsWithin(Method.PoissonProcess, c, FreshAt(position), n)
  }

  /** Wherever the engine stands, the stream comes to its sentinel. */
  ghost predicate AlwaysEnds(c: Configuration) {
    IsConfigured(c) && IsPoissonPattern(c) && forall position: nat :: EndsFrom(c, position)
  }

  /** It does when its draws are bounded from below. */
  lemma BoundedDrawsEnd(c: Configuration, delta: real)
    requires IsConfigured(c) && IsPoissonPattern(c) && DrawsAtLeast(c, delta)
    ensures AlwaysEnds(c)
    ensures forall position: nat ::
              EndsWithin(Method.PoissonProcess, c, FreshAt(position), RequestBound(c, delta) + 1)
  {
    hide IsConfigured, IsPoissonPattern, EndsWithin, RequestBound;
    OneMore(0, delta);
    forall position: nat
      ensures EndsWithin(Method.PoissonProcess, c, FreshAt(position), RequestBound(c, delta) + 1)
    {
      var n := RequestBound(c, delta) + 1;
      RunIsBounded(c, delta, FreshAt(position), n);
      SentinelEnds(c, FreshAt(position), n);
    }
    assert forall position: nat ::
        EndsWithin(Method.PoissonProcess, c, FreshAt(position), RequestBound(c, delta) + 1) && EndsFrom(c, position);
  }

  // ---------------------------------------------------------------- Replay

  /** The two engines give the same date-time draws from the positions of the two states on. */
  ghost predicate SameDraws(c: Configuration, s: State, c': Configuration, s': State) {
    && (forall i: nat :: s.dateTimePosition <= i ==>
          c.dateTimeEngine.uniform(i)
          == c'.dateTimeEngine.uniform(i - s.dateTimePosition + s'.dateTimePosition))
    && (forall i: nat, rate: real :: s.dateTimePosition <= i ==>
          c.dateTimeEngine.exponential(i, rate)
          == c'.dateTimeEngine.exponential(i - s.dateTimePosition + s'.dateTimePosition, rate))
  }

  /** The streams agree on everything that the date-times depend on. */
  ghost predicate SameCourse(m: Method, c: Configuration, s: State, c': Configuration, s': State) {
    && c'.key.date == c.key.date && c'.arrivalPattern == c.arrivalPattern
    && c'.mean == c.mean && c'.lib == c.lib
    && SameDraws(c, s, c', s')
    && (m.StatisticsOrder? ==>
          && Remaining(s') == Remaining(s)
          && s'.cumulativeProbabilitySoFar == s.cumulativeProbabilitySoFar)
    && (m.PoissonProcess? ==>
          && s'.stillHavingRequestsToBeGenerated == s.stillHavingRequestsToBeGenerated
          && s'.firstDateTimeRequest == s.firstDateTimeRequest
          && (!s.firstDateTimeRequest ==> s'.dateTimeLastRequest == s.dateTimeLastRequest))
  }

  lemma TicksAgree(c: Configuration, s: State, c': Configuration, s': State)
    requires IsPoisson(c, s) && IsPoisson(c', s')
    requires SameCourse(Method.PoissonProcess, c, s, c', s')
    requires !s.firstDateTimeRequest && OnSegment(c.arrivalPattern, s.dateTimeLastRequest)
    ensures PoissonTick(c', s').1 == PoissonTick(c, s).1
    ensures PoissonTick(c', s').0.dateTimeLastRequest == PoissonTick(c, s).0.dateTimeLastRequest
    ensures SameCourse(Method.PoissonProcess, c, PoissonTick(c, s).0, c', PoissonTick(c', s').0)
  {
    hide UpperBound, Slope, Quantile;
    assert DailyRate(c', s'.dateTimeLastRequest) == DailyRate(c, s.dateTimeLastRequest);
    hide DailyRate;
    var rate := DailyRate(c, s.dateTimeLastRequest);
    assert c.dateTimeEngine.exponential(s.dateTimePosition, rate)
           == c'.dateTimeEngine.exponential(s'.dateTimePosition, rate);
  }

  lemma {:induction false} PoissonCoursesAgree(c: Configuration, s: State, c': Configuration, s': State)
    requires IsPoisson(c, s) && IsPoisson(c', s')
    requires SameCourse(Method.PoissonProcess, c, s, c', s')
    ensures NextPoissonTime(c, s).1 == NextPoissonTime(c', s').1
    ensures SameCourse(Method.PoissonProcess, c, NextPoissonTime(c, s).0, c', NextPoissonTime(c', s').0)
    decreases s.firstDateTimeRequest, KnotsAbove(c, s)
  {
    hide PoissonTick, Quantile;
    StartIsConsistent(c, s);
    StartIsConsistent(c', s');
    var s0, s0' := PoissonStart(c, s), PoissonStart(c', s');
    if s0.dateTimeLastRequest != END {
      TickIsConsistent(c, s0);
      TickIsConsistent(c', s0');
      TicksAgree(c, s0, c', s0');
      if !PoissonTick(c, s0).1 {
        PoissonCoursesAgree(c, PoissonTick(c, s0).0, c', PoissonTick(c', s0').0);
      }
    }
  }

  lemma OrderCoursesAgree(c: Configuration, s: State, c': Configuration, s': State)
    requires IsOrdered(c, s) && IsOrdered(c', s') && Remaining(s) > 0
    requires SameCourse(StatisticsOrder, c, s, c', s')
    ensures NextOrderTime(c, s).1 == NextOrderTime(c', s').1
    ensures SameCourse(StatisticsOrder, c, NextOrderTime(c, s).0, c', NextOrderTime(c', s').0)
  {
    hide Shrink, Quantile;
    assert c.dateTimeEngine.uniform(s.dateTimePosition) == c'.dateTimeEngine.uniform(s'.dateTimePosition);
  }

  lemma TimesAgree(m: Method, c: Configuration, s: State, c': Configuration, s': State)
    requires IsReady(m, c, s) && IsReady(m, c', s') && SameCourse(m, c, s, c', s')
    requires StillHavingRequestsToBeGenerated(m, s) && StillHavingRequestsToBeGenerated(m, s')
    ensures NextTime(m, c, s).1 == NextTime(m, c', s').1
    ensures SameCourse(m, c, NextTime(m, c, s).0, c', NextTime(m, c', s').0)
  {
    if m.PoissonProcess? {
      PoissonCoursesAgree(c, s, c', s');
    } else {
      OrderCoursesAgree(c, s, c', s');
    }
    hide *;
  }

  lemma CoursesGoOnAlike(m: Method, c: Configuration, s: State, c': Configuration, s': State)
    requires SameCourse(m, c, s, c', s')
    ensures StillHavingRequestsToBeGenerated(m, s) == StillHavingRequestsToBeGenerated(m, s')
  {
    hide SameDraws;
  }

  /** Streams of the same course give the same date-times. */
  lemma {:induction false} CoursesAgree(m: Method, c: Configuration, s: State, c': Configuration, s': State, k: nat)
    requires IsReady(m, c, s) && IsReady(m, c', s') && SameCourse(m, c, s, c', s')
    ensures Stamps(m, c, s, k) == Stamps(m, c', s', k)
    decreases k
  {
    hide NextTime, SameCourse, IsConfigured, Supports, IsConsistent, StillHavingRequestsToBeGenerated;
    CoursesGoOnAlike(m, c, s, c', s');
    if k > 0 && StillHavingRequestsToBeGenerated(m, s) {
      NextTimeOutcome(m, c, s);
      NextTimeOutcome(m, c', s');
      TimesAgree(m, c, s, c', s');
      CoursesAgree(m, c, NextTime(m, c, s).0, c', NextTime(m, c', s').0, k - 1);
    }
  }

  /** The state of a stream that has just been created and initialised with a total. */
  function Fresh(total: int): State {
    State(total, 0, 0.0, true, true, 0.0, 0, 0)
  }

  /** The configuration of a stream that reads the date-time draws from position n on, and any
      other draws for the demand characteristics. */
  function Rewound(c: Configuration, n: nat, characteristics: Engine): Configuration {
    c.(dateTimeEngine := From(c.dateTimeEngine, n), characteristicsEngine := characteristics)
  }

  lemma ResetFollowsFreshCourse(m: Method, c: Configuration, s: State, total: int, characteristics: Engine)
    requires IsReady(m, c, s) && IsEngine(characteristics)
    ensures IsReady(m, c, Reset(s, total))
    ensures IsReady(m, Rewound(c, s.dateTimePosition, characteristics), Fresh(total))
    ensures SameCourse(m, c, Reset(s, total), Rewound(c, s.dateTimePosition, characteristics), Fresh(total))
  {
    hide IsLibrary, IsDistribution;
  }

  /** Replay: whatever state the previous run left, and whatever the draws of the demand
      characteristics, after a reset the stream gives the date-times that a fresh stream gives on
      the date-time draws that are still to come. */
  lemma ResetReplaysFreshStream(m: Method, c: Configuration, s: State, total: int, characteristics: Engine, k: nat)
    requires IsReady(m, c, s) && IsEngine(characteristics)
    ensures var c' := Rewound(c, s.dateTimePosition, characteristics);
            && IsReady(m, c, Reset(s, total)) && IsReady(m, c', Fresh(total))
            && Stamps(m, c, Reset(s, total), k) == Stamps(m, c', Fresh(total), k)
  {
    hide Stamps, Rewound, IsReady, SameCourse;
    ResetFollowsFreshCourse(m, c, s, total, characteristics);
    CoursesAgree(m, c, Reset(s, total), Rewound(c, s.dateTimePosition, characteristics), Fresh(total), k);
  }

  // ---------------------------------------------------------------- Willingness to pay

  /** The coefficient stays between its end points and never falls as the request date nears
      departure. */
  lemma Frat5NeverFalls(departureDate: int, t: int, t': int)
    requires t <= t'
    ensures 1.10 <= Frat5Coefficient(departureDate, t) <= Frat5Coefficient(departureDate, t') <= 2.500000001
  {
    hide Quantile, DateOf;
    Frat5IsDistribution();
    DateMonotone(t, t');
    var p, q := -((departureDate - DateOf(t)) as real), -((departureDate - DateOf(t')) as real);
    QuantileClamped(DEFAULT_FRAT5_PATTERN, p);
    QuantileClamped(DEFAULT_FRAT5_PATTERN, q);
    QuantileMonotone(DEFAULT_FRAT5_PATTERN, p, q);
  }

  /** The coefficient inverts the pattern: up to a year before departure, the pattern gives it back
      the days that are left; earlier and later requests get the end points. */
  lemma Frat5InvertsPattern(departureDate: int, t: int)
    ensures var daysLeft := departureDate - DateOf(t);
            var coefficient := Frat5Coefficient(departureDate, t);
            && IsMonotone(DEFAULT_FRAT5_PATTERN)
            && (0 <= daysLeft <= 365 ==> Cdf(DEFAULT_FRAT5_PATTERN, coefficient) == -(daysLeft as real))
            && (365 < daysLeft ==> coefficient == 1.10)
            && (daysLeft <= 0 ==> coefficient == 2.500000001)
  {
    hide Cdf, Quantile;
    Frat5IsDistribution();
    var p := -((departureDate - DateOf(t)) as real);
    QuantileClamped(DEFAULT_FRAT5_PATTERN, p);
    if -365.0 <= p <= 0.0 { CdfOfQuantile(DEFAULT_FRAT5_PATTERN, p); }
  }

  /** The default pattern: the coefficient a year, nine, seven and five weeks, 23, 16, ten and five days
      and a day before departure, and on its date. */
  lemma Frat5OfDays(departureDate: int, t: int)
    ensures var daysLeft, coefficient := departureDate - DateOf(t), Frat5Coefficient(departureDate, t);
            && (daysLeft == 365 ==> coefficient == 1.10)
            && (daysLeft == 63 ==> coefficient == 1.20)
            && (daysLeft == 49 ==> coefficient == 1.30)
            && (daysLeft == 35 ==> coefficient == 1.40)
            && (daysLeft == 23 ==> coefficient == 1.70)
            && (daysLeft == 16 ==> coefficient == 2.00)
            && (daysLeft == 10 ==> coefficient == 2.30)
            && (daysLeft == 5 ==> coefficient == 2.44)
            && (daysLeft == 1 ==> coefficient == 2.50)
            && (daysLeft == 0 ==> coefficient == 2.500000001)
  {
    hide Quantile, DateOf;
    Frat5IsDistribution();
    forall i | 0 <= i < 10
      ensures Quantile(DEFAULT_FRAT5_PATTERN, DEFAULT_FRAT5_PATTERN.cumulatives[i]) == DEFAULT_FRAT5_PATTERN.values[i]
    {
      QuantileOfKnot(DEFAULT_FRAT5_PATTERN, i);
    }
    var d := DEFAULT_FRAT5_PATTERN;
    assert d.cumulatives[0] == -365.0 && d.cumulatives[1] == -63.0 && d.cumulatives[2] == -49.0;
    assert d.cumulatives[3] == -35.0 && d.cumulatives[4] == -23.0 && d.cumulatives[5] == -16.0;
    assert d.cumulatives[6] == -10.0 && d.cumulatives[7] == -5.0 && d.cumulatives[8] == -1.0 && d.cumulatives[9] == 0.0;
  }

  /** The coefficient is the ratio to the minimum that half of the customers are willing to pay. */
  lemma WtpOfMedianDraw(c: Configuration, t: int)
    requires IsLibrary(c.lib)
    ensures WTP(c, t, 0.5) == c.minWTP * Frat5Coefficient(c.key.date, t)
  {
    hide Frat5Coefficient;
    FormulaAtHalf(c.minWTP, Frat5Coefficient(c.key.date, t), c.lib.log(0.5));
  }

  lemma FormulaAtHalf(minWTP: real, coefficient: real, logHalf: real)
    requires logHalf < 0.0
    ensures WtpFormula(minWTP, coefficient, logHalf, logHalf) == minWTP * coefficient
  {
    var r, q := coefficient - 1.0, (coefficient - 1.0) * logHalf / logHalf;
    assert q * -logHalf == r * -logHalf;
    if q < r { MulStrict(-logHalf, q, r); }
    if r < q { MulStrict(-logHalf, r, q); }
  }

  lemma QuotientByHalf(a: real, logDraw: real, logHalf: real)
    requires logHalf < 0.0
    ensures a * logDraw / logHalf * logHalf == a * logDraw
  {
  }

  /** What a customer pays above the minimum, by the formula. */
  lemma FormulaAboveMinimum(minWTP: real, coefficient: real, logDraw: real, logHalf: real)
    requires logHalf < 0.0
    ensures (WtpFormula(minWTP, coefficient, logDraw, logHalf) - minWTP) * logHalf
            == minWTP * ((coefficient - 1.0) * logDraw)
  {
    var g := (coefficient - 1.0) * logDraw / logHalf;
    QuotientByHalf(coefficient - 1.0, logDraw, logHalf);
    Distribute(minWTP, 1.0 + g, 1.0);
    assert WtpFormula(minWTP, coefficient, logDraw, logHalf) - minWTP == minWTP * g;
    Regroup(g, logHalf, minWTP);
    MulEqual(minWTP, g * logHalf, (coefficient - 1.0) * logDraw);
    assert minWTP * g * logHalf == g * (minWTP * logHalf) == minWTP * (g * logHalf);
  }

  lemma DivideByNegative(x: real, y: real, k: real)
    requires k < 0.0 && x * k == y * k
    ensures x == y
  {
    if x < y { MulStrict(-k, x, y); }
    if y < x { MulStrict(-k, y, x); }
  }

  lemma SwapFactors(a: real, b: real, k: real, x: real, y: real, r: real)
    requires a * k == r * x && b * k == r * y
    ensures a * y * k == b * x * k
  {
    assert a * y * k == a * k * y;
    assert b * x * k == b * k * x;
    MulEqual(y, a * k, r * x);
    MulEqual(x, b * k, r * y);
    assert y * (r * x) == x * (r * y);
  }

  /** The exponential law of willingness to pay: above the minimum, it is to its value for another
      draw as the logarithms of the draws. */
  lemma WtpFollowsLogOfDraw(c: Configuration, t: int, u: real, u': real)
    requires IsLibrary(c.lib) && 0.0 < u < 1.0 && 0.0 < u' < 1.0
    ensures (WTP(c, t, u) - c.minWTP) * c.lib.log(u') == (WTP(c, t, u') - c.minWTP) * c.lib.log(u)
    ensures (WTP(c, t, u) - c.minWTP) * c.lib.log(0.5)
            == c.minWTP * ((Frat5Coefficient(c.key.date, t) - 1.0) * c.lib.log(u))
  {
    hide WtpFormula, Frat5Coefficient;
    var r := Frat5Coefficient(c.key.date, t) - 1.0;
    var x, y, h := c.lib.log(u), c.lib.log(u'), c.lib.log(0.5);
    FormulaAboveMinimum(c.minWTP, r + 1.0, x, h);
    FormulaAboveMinimum(c.minWTP, r + 1.0, y, h);
    var a, b := WTP(c, t, u) - c.minWTP, WTP(c, t, u') - c.minWTP;
    Associate(c.minWTP, r, x);
    Associate(c.minWTP, r, y);
    SwapFactors(a, b, h, x, y, c.minWTP * r);
    DivideByNegative(a * y, b * x, h);
  }

  lemma Associate(a: real, b: real, c: real)
    ensures a * b * c == a * (b * c)
  {
  }

  /** With a positive minimum a rarer draw pays strictly more, on every date. */
  lemma RarerDrawPaysMore(c: Configuration, t: int, u: real, u': real)
    requires IsLibrary(c.lib) && 0.0 < c.minWTP && 0.0 < u < 1.0 && 0.0 < u' < 1.0
    requires c.lib.log(u) < c.lib.log(u')
    ensures WTP(c, t, u') < WTP(c, t, u)
  {
    hide WTP, Frat5Coefficient;
    Frat5NeverFalls(c.key.date, t, t);
    WtpFollowsLogOfDraw(c, t, u, u');
    WtpFollowsLogOfDraw(c, t, u', u);
    MoreAboveMinimum(c.minWTP, Frat5Coefficient(c.key.date, t) - 1.0, c.lib.log(u), c.lib.log(u'), c.lib.log(0.5),
                     WTP(c, t, u) - c.minWTP, WTP(c, t, u') - c.minWTP);
  }

  lemma MoreAboveMinimum(minimum: real, r: real, x: real, y: real, h: real, a: real, b: real)
    requires 0.0 < minimum && 0.0 < r && x < y && h < 0.0
    requires a * h == minimum * (r * x) && b * h == minimum * (r * y)
    ensures b < a
  {
    MulStrict(r, x, y);
    MulStrict(minimum, r * x, r * y);
    if a <= b { MulMonotone(-h, a, b); }
  }

  lemma FormulaMonotone(minWTP: real, a: real, b: real, x: real, y: real)
    requires 0.0 <= minWTP && 1.0 <= a <= b && x < 0.0 && y < 0.0
    ensures minWTP <= WtpFormula(minWTP, a, x, y) <= WtpFormula(minWTP, b, x, y)
  {
    var p, q := (a - 1.0) * x / y, (b - 1.0) * x / y;
    assert p * -y == (a - 1.0) * -x && q * -y == (b - 1.0) * -x;
    MulMonotone(-x, a - 1.0, b - 1.0);
    MulMonotone(-x, 0.0, a - 1.0);
    if q < p { MulStrict(-y, q, p); }
    if p < 0.0 { MulStrict(-y, p, 0.0); }
    MulMonotone(minWTP, 1.0, 1.0 + p);
    MulMonotone(minWTP, 1.0 + p, 1.0 + q);
  }

  /** From date-time t to t' neither the coefficient nor, for an equal draw u, the willingness to
      pay falls; the coefficient stays in its range, the willingness above its minimum. */
  ghost predicate WtpRises(c: Configuration, t: int, t': int, u: real)
    requires IsLibrary(c.lib)
  {
    && 1.10 <= Frat5Coefficient(c.key.date, t) <= Frat5Coefficient(c.key.date, t') <= 2.500000001
    && c.minWTP <= WTP(c, t, u) <= WTP(c, t', u)
  }

  lemma WtpNeverFalls(c: Configuration, t: int, t': int, u: real)
    requires IsLibrary(c.lib) && 0.0 <= c.minWTP && 0.0 < u < 1.0 && t <= t'
    ensures WtpRises(c, t, t', u)
  {
    hide WtpFormula, Frat5Coefficient;
    Frat5NeverFalls(c.key.date, t, t');
    FormulaMonotone(c.minWTP, Frat5Coefficient(c.key.date, t), Frat5Coefficient(c.key.date, t'),
                    c.lib.log(u), c.lib.log(0.5));
  }

  /** Along one stream's run the fare coefficient never decreases and stays in [1.10, 2.500000001];
      so, for equal draws, neither does the willingness to pay, which never falls below a
      non-negative minimum. */
  lemma WtpNeverFallsAlongRun(m: Method, c: Configuration, s: State, k: nat, u: real)
    requires IsReady(m, c, s) && 0.0 <= c.minWTP && 0.0 < u < 1.0
    ensures var stamps := Stamps(m, c, s, k);
            forall i, j :: 0 <= i < j < |stamps| ==> WtpRises(c, stamps[i], stamps[j], u)
  {
    hide WtpRises;
    StampsNeverDecrease(m, c, s, k);
    var stamps := Stamps(m, c, s, k);
    forall i, j | 0 <= i < j < |stamps| ensures WtpRises(c, stamps[i], stamps[j], u) {
      WtpNeverFalls(c, stamps[i], stamps[j], u);
    }
  }
}

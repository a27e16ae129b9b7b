/** The assumptions of the model can be met: a library, engines whose exponential draws scale with
    the rate, the demand that trademgen/command/DemandManager.cpp builds in as rows, and whole runs
    of it under either method.  The built-in demand also shows a stream that is never resumed. */
module Instances {
  import opened CategoricalAttributeLite
  import opened ContinuousAttributeLite
  import opened DateTime
  import opened Delivery
  import opened DemandCreation
  import opened DemandStream
  import opened DemandStreamModel
  import opened DriverCourses
  import opened DriverInvariant
  import opened DriverModel
  import opened DriverSteps
  import opened DriverTheorems
  import opened PoissonProcess
  import opened RandomGeneration
  import opened RealArithmetic
  import opened RequestRuns
  import opened RowDemand
  import opened Search
  import opened StreamRuns
  import opened Sums

  // ---------------------------------------------------------------- A library

  ghost predicate IsRoot(y: real, x: real, n: nat) {
    0.0 < y && Pow(y, n) == x
  }

  /** Positive reals have roots: the one fact of real analysis that a library needs. */
  ghost predicate RootsExist() {
    forall x: real, n: nat :: 0.0 < x && 0 < n ==> HasRoot(x, n)
  }

  ghost predicate HasRoot(x: real, n: nat) {
    exists y :: IsRoot(y, x, n)
  }

  ghost predicate IsPower(y: real, x: real, e: real) {
    exists n: nat :: 0 < n && Reciprocal(n) == e && IsRoot(y, x, n)
  }

  /** x to the power of e, where e is the reciprocal of a positive integer. */
  ghost function Root(x: real, e: real): real {
    if exists y :: IsPower(y, x, e) then
      var y :| IsPower(y, x, e);
      y
    else 1.0
  }

  lemma ReciprocalIsInjective(n: nat, k: nat)
    requires 0 < n && 0 < k && Reciprocal(n) == Reciprocal(k)
    ensures n == k
  {
    assert Reciprocal(n) * n as real == 1.0 && Reciprocal(k) * k as real == 1.0;
    if n < k { MulStrict(Reciprocal(n), n as real, k as real); }
    if k < n { MulStrict(Reciprocal(n), k as real, n as real); }
  }

  lemma RootIsRoot(x: real, n: nat)
    requires RootsExist() && 0.0 < x && 0 < n
    ensures IsRoot(Root(x, Reciprocal(n)), x, n)
  {
    assert HasRoot(x, n);
    var y :| IsRoot(y, x, n);
    assert IsPower(y, x, Reciprocal(n));
    assert IsPower(Root(x, Reciprocal(n)), x, Reciprocal(n));
    var k: nat :| 0 < k && Reciprocal(k) == Reciprocal(n) && IsRoot(Root(x, Reciprocal(n)), x, k);
    ReciprocalIsInjective(n, k);
  }

  /** A text for every date: one character for the day, in a field of eleven. */
  function DateText(day: int): string {
    if IsDate(day) then [day as char] + "----------" else ""
  }

  /** There is a library as the model assumes it. */
  lemma LibraryExists() returns (lib: Library)
    requires RootsExist()
    ensures IsLibrary(lib) && HasDateTexts(lib)
  {
    lib := Library((x: real, e: real) => Root(x, e), (x: real) => x - 1.0, (day: int) => DateText(day));
    forall x, n: nat | 0.0 < x && 0 < n
      ensures 0.0 < lib.pow(x, Reciprocal(n)) && Pow(lib.pow(x, Reciprocal(n)), n) == x
    {
      RootIsRoot(x, n);
    }
    forall day, day' | IsDate(day) && IsDate(day') && lib.dateText(day) == lib.dateText(day')
      ensures day == day'
    {
      assert lib.dateText(day)[0] == day as char && lib.dateText(day')[0] == day' as char;
    }
  }

  // ---------------------------------------------------------------- Engines

  /** An engine that draws one half wherever a uniform draw is asked for, and whose exponential draws
      are those of rate one divided by the rate. */
  function HalfEngine(): Engine {
    Engine((k: nat) => 0.5, (k: nat, rate: real) => if 0.0 < rate then 1.0 / rate else 0.0,
           (k: nat, mean: real, deviation: real) => mean)
  }

  lemma HalfEngineScales()
    ensures IsEngine(HalfEngine()) && ScalesUnit(HalfEngine(), (k: nat) => 1.0)
  {
    forall k: nat, rate: real | 0.0 < rate
      ensures Scaled(HalfEngine().exponential(k, rate), rate) == 1.0 && 0.0 <= HalfEngine().exponential(k, rate)
    {
      PositiveQuotient(1.0, rate);
    }
  }

  // ---------------------------------------------------------------- The built-in demand

  const BUILT_IN_PATTERN := [Knot(-330.0, 0.0), Knot(-150.0, 0.1), Knot(-92.0, 0.2), Knot(-55.0, 0.3), Knot(-34.0, 0.4),
                             Knot(-21.0, 0.5), Knot(-12.0, 0.6), Knot(-6.0, 0.7), Knot(-3.0, 0.8), Knot(-1.0, 0.9),
                             Knot(0.0, 1.0)]

  /** Preferred times from Singapore: six, eight, ten, twelve and fourteen o'clock. */
  const SINGAPORE_TIMES := [Knot(21_600.0, 0.0), Knot(28_800.0, 0.7), Knot(36_000.0, 0.8), Knot(43_200.0, 0.9),
                            Knot(50_400.0, 1.0)]

  /** Preferred times from Bangkok.  The knot at one o'clock is inserted after the one at ten. */
  const BANGKOK_TIMES := [Knot(3_600.0, 0.6), Knot(28_800.0, 0.0), Knot(36_000.0, 0.2), Knot(50_400.0, 0.8),
                          Knot(57_600.0, 1.0)]

  /** 8 February 2010, a Monday. */
  const BUILT_IN_DAY := 3_697

  function BuiltInCustomers(pointOfSale: string): CustomerMasses {
    CustomerMasses([Mass(pointOfSale, 1.0)],
                   [Mass("DF", 0.0), Mass("DN", 0.0), Mass("IF", 0.0), Mass("IN", 1.0)],
                   [Mass("OW", 1.0), Mass("RI", 0.0), Mass("RO", 0.0)],
                   [Mass(0, 0.1), Mass(1, 0.1), Mass(2, 0.15), Mass(3, 0.15), Mass(4, 0.15), Mass(5, 0.35)],
                   [Mass("G", 0.01), Mass("M", 0.4), Mass("N", 0.4), Mass("P", 0.1), Mass("S", 0.09)])
  }

  function BuiltInRow(origin: string, destination: string, pattern: seq<Knot>, times: seq<Knot>, minWTP: real)
    : DemandStruct
  {
    DemandStruct(BUILT_IN_DAY, BUILT_IN_DAY, [true, true, true, true, true, true, true], origin, destination, "Y",
                 DemandCharacteristics(pattern, BuiltInCustomers(origin), 0.5, 0.5, times, minWTP,
                                       [Knot(15.0, 0.0), Knot(60.0, 1.0)]),
                 60.0, 4.0)
  }

  function BuiltInRows(): seq<DemandStruct> {
    [BuiltInRow("SIN", "BKK", BUILT_IN_PATTERN, SINGAPORE_TIMES, 400.0),
     BuiltInRow("BKK", "HKG", BUILT_IN_PATTERN, BANGKOK_TIMES, 400.0),
     BuiltInRow("SIN", "HKG", BUILT_IN_PATTERN, SINGAPORE_TIMES, 750.0)]
  }

  function BuiltInSources(lib: Library): Sources {
    Sources(lib, (seed: int) => HalfEngine(), HalfEngine())
  }

  /** The total mass up to and including entry k. */
  lemma TotalUpTo<T>(m: seq<Mass<T>>, k: nat)
    requires k < |m|
    ensures TotalMass(m[..k + 1])
            == (if k == 0 then 0.0 else TotalMass(m[..k])) + if m[k].mass > 0.0 then m[k].mass else 0.0
    ensures k + 1 == |m| ==> m[..k + 1] == m
  {
    assert m[..k + 1][..k] == m[..k];
    assert k == 0 ==> m[..k] == [];
  }

  lemma StaysAreComplete(m: seq<Mass<int>>)
    requires m == [Mass(0, 0.1), Mass(1, 0.1), Mass(2, 0.15), Mass(3, 0.15), Mass(4, 0.15), Mass(5, 0.35)]
    ensures TotalMass(m) == 1.0
  {
    hide TotalMass;
    TotalUpTo(m, 0);
    TotalUpTo(m, 1);
    TotalUpTo(m, 2);
    TotalUpTo(m, 3);
    TotalUpTo(m, 4);
    TotalUpTo(m, 5);
  }

  lemma FrequentFlyersAreComplete(m: seq<Mass<string>>)
    requires m == [Mass("G", 0.01), Mass("M", 0.4), Mass("N", 0.4), Mass("P", 0.1), Mass("S", 0.09)]
    ensures TotalMass(m) == 1.0
  {
    hide TotalMass;
    TotalUpTo(m, 0);
    TotalUpTo(m, 1);
    TotalUpTo(m, 2);
    TotalUpTo(m, 3);
    TotalUpTo(m, 4);
  }

  lemma ChannelsAreComplete(m: seq<Mass<string>>)
    requires m == [Mass("DF", 0.0), Mass("DN", 0.0), Mass("IF", 0.0), Mass("IN", 1.0)]
    ensures TotalMass(m) == 1.0
  {
    hide TotalMass;
    TotalUpTo(m, 0);
    TotalUpTo(m, 1);
    TotalUpTo(m, 2);
    TotalUpTo(m, 3);
  }

  lemma TripTypesAreComplete(m: seq<Mass<string>>)
    requires m == [Mass("OW", 1.0), Mass("RI", 0.0), Mass("RO", 0.0)]
    ensures TotalMass(m) == 1.0
  {
    hide TotalMass;
    TotalUpTo(m, 0);
    TotalUpTo(m, 1);
    TotalUpTo(m, 2);
  }

  lemma BuiltInCustomersAreComplete(pointOfSale: string)
    ensures AreComplete(BuiltInCustomers(pointOfSale))
  {
    hide TotalMass;
    var m := BuiltInCustomers(pointOfSale);
    TotalUpTo(m.pointOfSale, 0);
    ChannelsAreComplete(m.channel);
    TripTypesAreComplete(m.tripType);
    StaysAreComplete(m.stayDuration);
    FrequentFlyersAreComplete(m.frequentFlyer);
  }

  ghost predicate AreKnots(pattern: seq<Knot>, times: seq<Knot>) {
    pattern == BUILT_IN_PATTERN && (times == SINGAPORE_TIMES || times == BANGKOK_TIMES)
  }

  lemma BuiltInRowIsRow(origin: string, destination: string, times: seq<Knot>, minWTP: real)
    requires |origin| == 3 && |destination| == 3 && AreKnots(BUILT_IN_PATTERN, times)
    ensures IsRow(BuiltInRow(origin, destination, BUILT_IN_PATTERN, times, minWTP))
    ensures DaysOf(BuiltInRow(origin, destination, BUILT_IN_PATTERN, times, minWTP)) == [BUILT_IN_DAY]
  {
    BuiltInCustomersAreComplete(origin);
    hide AreComplete;
    var d := BuiltInRow(origin, destination, BUILT_IN_PATTERN, times, minWTP);
    assert ActiveDays(d.dow, BUILT_IN_DAY, BUILT_IN_DAY) == [];
  }

  // ---------------------------------------------------------------- Its rates

  /** No interval of the walk has a slope of more than one tenth in two days. */
  lemma BuiltInSlope(x: real)
    requires OnSegment(FromKnots(BUILT_IN_PATTERN), x) && x < END
    ensures Slope(FromKnots(BUILT_IN_PATTERN), x) <= 0.05
  {
    hide Rise;
    var d := FromKnots(BUILT_IN_PATTERN);
    SegmentIndex(d, x);
    var i := FirstAbove(d.values, x);
    assert d.values[9] == END;
    assert i <= 9;
    assert d.cumulatives[i] - d.cumulatives[i - 1] == 0.1 && 2.0 <= d.values[i] - d.values[i - 1];
    FlatRise(d.values[i - 1], d.values[i], d.cumulatives[i - 1], d.cumulatives[i]);
  }

  lemma FlatRise(v0: real, v1: real, c0: real, c1: real)
    requires c1 - c0 == 0.1 && 2.0 <= v1 - v0
    ensures Rise(v0, v1, c0, c1) <= 0.05
  {
    var q := Rise(v0, v1, c0, c1);
    assert q * (v1 - v0) == 0.1;
    if 0.05 < q { MulStrict(v1 - v0, 0.05, q); }
  }

  lemma QuotientAtLeast(rate: real)
    requires 0.0 < rate <= 3.0
    ensures 0.3 <= 1.0 / rate
  {
    var q := 1.0 / rate;
    assert q * rate == 1.0;
    if q < 0.3 { MulStrict(rate, q, 0.3); }
  }

  ghost predicate IsBuiltIn(c: Configuration) {
    && IsConfigured(c) && c.arrivalPattern == FromKnots(BUILT_IN_PATTERN) && c.mean == 60.0
    && c.dateTimeEngine == HalfEngine()
  }

  /** With three requests a day at most, draws of the scaling engine last three tenths of a day, or
      more; so the stream comes to its sentinel. */
  lemma BuiltInStreamEnds(c: Configuration)
    requires IsBuiltIn(c)
    ensures AlwaysEnds(c)
  {
    assert c.arrivalPattern.values[9] == END;
    assert IsPoissonPattern(c);
    hide IsConfigured, Slope, IsPoissonPattern, AlwaysEnds;
    forall k: nat, x: real | OnSegment(c.arrivalPattern, x) && x < END
      ensures 0.3 <= c.dateTimeEngine.exponential(k, DailyRate(c, x))
    {
      BuiltInSlope(x);
      DailyRatePositive(c, x);
      QuotientAtLeast(DailyRate(c, x));
    }
    BoundedDrawsEnd(c, 0.3);
  }

  // ---------------------------------------------------------------- Whole runs

  lemma BuiltInRowSuits(m: Method, lib: Library, origin: string, destination: string, times: seq<Knot>, minWTP: real)
    requires IsLibrary(lib) && |origin| == 3 && |destination| == 3 && AreKnots(BUILT_IN_PATTERN, times)
    ensures Suits(m, BuiltInSources(lib), BuiltInRow(origin, destination, BUILT_IN_PATTERN, times, minWTP))
  {
    var w, d := BuiltInSources(lib), BuiltInRow(origin, destination, BUILT_IN_PATTERN, times, minWTP);
    BuiltInRowIsRow(origin, destination, times, minWTP);
    forall position: nat, day: int ensures AlwaysEnds(ConfigurationFor(w, d, position, day)) {
      ConfigureIsConfigured(KeyOf(d, day), d.characteristics, d.mean, d.stdDev, HalfEngine(), HalfEngine(), lib);
      BuiltInStreamEnds(ConfigurationFor(w, d, position, day));
    }
  }

  /** The built-in demand, as rows, meets what the batch asks for, under either method. */
  lemma BuiltInRowsSuit(m: Method, lib: Library)
    requires IsLibrary(lib)
    ensures IsSources(BuiltInSources(lib)) && AreRows(BuiltInRows()) && AllSuit(m, BuiltInSources(lib), BuiltInRows())
    ensures HaveDistinctKeys(BuiltInRows()) && |Keys(BuiltInRows())| == 3
  {
    var rows := BuiltInRows();
    BuiltInRowIsRow("SIN", "BKK", SINGAPORE_TIMES, 400.0);
    BuiltInRowIsRow("BKK", "HKG", BANGKOK_TIMES, 400.0);
    BuiltInRowIsRow("SIN", "HKG", SINGAPORE_TIMES, 750.0);
    BuiltInRowSuits(m, lib, "SIN", "BKK", SINGAPORE_TIMES, 400.0);
    BuiltInRowSuits(m, lib, "BKK", "HKG", BANGKOK_TIMES, 400.0);
    BuiltInRowSuits(m, lib, "SIN", "HKG", SINGAPORE_TIMES, 750.0);
    hide IsRow, Suits, IsLibrary, DaysOf, BuiltInRow;
    assert AreRows(rows);
    KeysOfThree(rows);
  }

  lemma KeysOfThree(rows: seq<DemandStruct>)
    requires AreRows(rows) && |rows| == 3
    requires forall k :: 0 <= k < 3 ==> DaysOf(rows[k]) == [BUILT_IN_DAY]
    ensures Keys(rows) == [KeyOf(rows[0], BUILT_IN_DAY), KeyOf(rows[1], BUILT_IN_DAY), KeyOf(rows[2], BUILT_IN_DAY)]
  {
    hide DaysOf, IsCharacteristics;
    assert RowKeys(rows[0]) == [KeyOf(rows[0], BUILT_IN_DAY)];
    assert RowKeys(rows[1]) == [KeyOf(rows[1], BUILT_IN_DAY)];
    assert RowKeys(rows[2]) == [KeyOf(rows[2], BUILT_IN_DAY)];
    var two, one := rows[..2], rows[..1];
    assert two[..1] == one && one[..0] == [];
    assert Keys(one) == RowKeys(one[0]);
    assert Keys(two) == Keys(one) + RowKeys(two[1]);
  }

  lemma StartOfPlans(m: Method, cs: seq<Configuration>, totals: seq<int>, tape: Engine)
    requires IsSystem(m, cs) && |totals| == |cs|
    ensures IsStart(m, cs, StartRun(seq(|cs|, i requires 0 <= i < |cs| => Fresh(totals[i])), 0, tape, 0))
  {
    hide IsConfigured, Supports, Fresh, KeyStrings;
    var start := StartRun(seq(|cs|, i requires 0 <= i < |cs| => Fresh(totals[i])), 0, tape, 0);
    forall i | 0 <= i < |cs|
      ensures IsReady(m, cs[i], start.streams[i])
      ensures start.streams[i].numberOfRequestsGeneratedSoFar == 0
      ensures start.streams[i].stillHavingRequestsToBeGenerated && start.streams[i].firstDateTimeRequest
    {
      NewIsReady(m, cs[i], totals[i]);
    }
    hide IsReady, IsSystem;
  }

  lemma NewIsReady(m: Method, c: Configuration, total: int)
    requires IsConfigured(c) && Supports(m, c)
    ensures IsReady(m, c, Fresh(total)) && Fresh(total).numberOfRequestsGeneratedSoFar == 0
    ensures Fresh(total).stillHavingRequestsToBeGenerated && Fresh(total).firstDateTimeRequest
  {
    hide IsConfigured, Supports;
  }

  /** There are whole runs of the three built-in streams, under either method. */
  lemma BuiltInRunExists(m: Method) returns (lib: Library, cs: seq<Configuration>, trace: seq<Run>)
    requires RootsExist()
    ensures AreRows(BuiltInRows()) && AreStreamsOf(BuiltInSources(lib), BuiltInRows(), cs) && |cs| == 3
    ensures IsCompleteTrace(m, cs, trace)
  {
    hide IsStart, IsComplete, Step, IsSources, IsLibrary, HasDateTexts, AllSuit, AreRows, HaveDistinctKeys, Plans, Keys,
         BuiltInRows, BuiltInSources, IsSystem, DrawsEnd, IsGoodPlan, IsReady, EndWithin, Fresh;
    lib := LibraryExists();
    var w, rows := BuiltInSources(lib), BuiltInRows();
    BuiltInRowsSuit(m, lib);
    PlansAreGood(m, w, rows);
    SourcesHaveLibrary(lib);
    var plans := Plans(w, rows);
    cs := seq(|plans|, i requires 0 <= i < |plans| => plans[i].configuration);
    RowsMakeSystem(m, w, rows, cs);
    var totals := seq(|plans|, i requires 0 <= i < |plans| => plans[i].total);
    StartOfPlans(m, cs, totals, HalfEngine());
    var start := StartRun(seq(|cs|, i requires 0 <= i < |cs| => Fresh(totals[i])), 0, HalfEngine(), 0);
    var bounds := StartEnds(m, cs, start);
    trace := RunCompletes(m, cs, [start], bounds);
  }

  lemma SourcesHaveLibrary(lib: Library)
    ensures BuiltInSources(lib).lib == lib
  {
  }

  // ---------------------------------------------------------------- A stranded stream

  lemma QuantileBetween(d: Distribution, p: real, i: nat)
    requires IsDistribution(d) && 0 < i < |d.values| && d.cumulatives[i - 1] <= p < d.cumulatives[i]
    requires forall k :: 0 <= k < i ==> d.cumulatives[k] <= p
    ensures Quantile(d, p) == Interpolate(d.values[i - 1], d.values[i], d.cumulatives[i - 1], d.cumulatives[i], p)
  {
    FirstAboveIsUnique(d.cumulatives, p, i);
  }

  /** The probability 0.995 lies an hour and twelve minutes before the reference departure time, and
      so after six o'clock, the earliest preferred time from Singapore. */
  lemma BuiltInIsLate(c: Configuration)
    requires IsConfigured(c) && c.arrivalPattern == FromKnots(BUILT_IN_PATTERN)
    requires c.preferredDepartureTime == FromKnots(SINGAPORE_TIMES)
    ensures !IsBeforeDeparture(c.key.date, EarliestTime(c),
                               RequestDateTime(c.key.date, Quantile(c.arrivalPattern, 0.995)))
    ensures !LandsInTime(c)
  {
    hide Quantile, IsBeforeDeparture, RequestDateTime, IsConfigured, IsDistribution;
    assert IsDistribution(c.arrivalPattern) && IsDistribution(c.preferredDepartureTime) by { HasDistributions(c); }
    QuantileBetween(c.arrivalPattern, 0.995, 10);
    assert Quantile(c.arrivalPattern, 0.995) == -0.05;
    QuantileBetween(c.preferredDepartureTime, 0.0, 1);
    InterpolateEnds(21_600.0, 28_800.0, 0.0, 0.7);
    assert EarliestTime(c) == 21_600_000;
    PassesIffBeforeDeadline(c.key.date, EarliestTime(c), -0.05);
    assert Deadline(21_600_000) < -0.08;
  }

  lemma HasDistributions(c: Configuration)
    requires IsConfigured(c)
    ensures IsDistribution(c.arrivalPattern) && IsDistribution(c.preferredDepartureTime)
  {
  }

  /** The built-in stream from Singapore to Bangkok, with draws that put its first request there. */
  function LateStream(lib: Library): Configuration {
    Adverse(ConfigurationFor(BuiltInSources(lib), BuiltInRows()[0], 0, BUILT_IN_DAY), 0.995, 2)
  }

  lemma LateStreamFacts(lib: Library)
    requires IsLibrary(lib)
    ensures IsReady(StatisticsOrder, LateStream(lib), Fresh(2))
    ensures StillHavingRequestsToBeGenerated(StatisticsOrder, Fresh(2))
    ensures forall shared :: !Passes(NextRequest(StatisticsOrder, LateStream(lib), Fresh(2), shared).1)
  {
    var d := BuiltInRows()[0];
    var c := ConfigurationFor(BuiltInSources(lib), d, 0, BUILT_IN_DAY);
    BuiltInRowIsRow("SIN", "BKK", SINGAPORE_TIMES, 400.0);
    ConfigureIsConfigured(KeyOf(d, BUILT_IN_DAY), d.characteristics, d.mean, d.stdDev, HalfEngine(), HalfEngine(), lib);
    assert IsConfigured(c) && c.arrivalPattern == FromKnots(BUILT_IN_PATTERN);
    assert c.preferredDepartureTime == FromKnots(SINGAPORE_TIMES);
    hide IsConfigured, Quantile, NextRequest, IsBeforeDeparture, RequestDateTime, EarliestTime, Fresh, Supports,
         IsConsistent, Adverse, StillHavingRequestsToBeGenerated;
    BuiltInIsLate(c);
    FirstRequestAt(c, 0.995, 2);
    forall shared ensures !Passes(NextRequest(StatisticsOrder, LateStream(lib), Fresh(2), shared).1) {
      SharedDrawDoesNotMatter(StatisticsOrder, LateStream(lib), Fresh(2), shared, 0.0);
    }
  }

  function LateStart(): Run {
    StartRun([Fresh(2)], 0, HalfEngine(), 0)
  }

  lemma LateStreamCanStart(lib: Library)
    requires IsLibrary(lib)
    ensures IsStart(StatisticsOrder, [LateStream(lib)], LateStart())
    ensures LateStart().streams[0].totalNumberOfRequestsToBeGenerated == 2
    ensures CanGenerate(StatisticsOrder, [LateStream(lib)], Visit(LateStart()), 0)
    ensures !Passes(GeneratedRequest(StatisticsOrder, [LateStream(lib)], Visit(LateStart()), 0))
    ensures Sum(Targets(LateStart().streams)) == 2
  {
    hide IsConfigured, Supports, IsConsistent, LateStream, NextRequest, Passes, Targets,
         DemandStreamModel.StillHavingRequestsToBeGenerated;
    LateStreamFacts(lib);
    TargetOfTwo();
    assert Visit(LateStart()).streams == [Fresh(2)];
    assert IsSystem(StatisticsOrder, [LateStream(lib)]);
  }

  lemma TargetOfTwo()
    ensures Sum(Targets(LateStart().streams)) == 2
  {
    assert Targets(LateStart().streams) == [2] && [2][..0] == [];
  }

  /** A whole run that pops nothing, although its stream was to generate two requests. */
  lemma StrandedRunExists() returns (lib: Library, trace: seq<Run>)
    requires RootsExist()
    ensures IsCompleteTrace(StatisticsOrder, [LateStream(lib)], trace) && trace[0] == LateStart()
    ensures trace[|trace| - 1].stamps == [] && Sum(Targets(trace[0].streams)) == 2
  {
    hide IsStart, Inv, SeedStep, IsTrace, IsComplete, IsLibrary, HasDateTexts, Targets, LateStream, Fresh, CanGenerate,
         GeneratedRequest, Passes;
    lib := LibraryExists();
    var cs, start := [LateStream(lib)], LateStart();
    LateStreamCanStart(lib);
    StartHasInv(StatisticsOrder, cs, start);
    var ch, seeded := SeedingGoesOn(StatisticsOrder, cs, start);
    RejectionStrandsStream(LateStream(lib), start, ch, seeded);
    StepsToTheEnd(cs, start, ch, seeded);
    trace := [start] + [seeded] + [StatusUpdate(seeded)];
  }

  lemma StepsToTheEnd(cs: seq<Configuration>, start: Run, ch: Choice, seeded: Run)
    requires |cs| == 1 && IsStart(StatisticsOrder, cs, start) && SeedStep(StatisticsOrder, cs, start, ch, seeded)
    ensures IsTrace(StatisticsOrder, cs, [start] + [seeded] + [StatusUpdate(seeded)])
  {
    assert Step(StatisticsOrder, cs, start, seeded);
    assert IsTrace(StatisticsOrder, cs, [start]);
    TraceExtends(StatisticsOrder, cs, [start], seeded);
    var trace := [start] + [seeded];
    TraceAdvances(StatisticsOrder, cs, trace, 1);
    TraceHasInv(StatisticsOrder, cs, trace, 1);
    hide SeedStep, IsStart;
    assert seeded.next == 1;
    assert Step(StatisticsOrder, cs, seeded, StatusUpdate(seeded));
    TraceExtends(StatisticsOrder, cs, trace, StatusUpdate(seeded));
  }

  /** The same row with a pattern that ends a day before departure delivers. */
  lemma EarlyRowLandsInTime()
    ensures var d := BuiltInRow("SIN", "BKK", [Knot(-330.0, 0.0), Knot(-1.0, 1.0)], SINGAPORE_TIMES, 400.0);
            IsRow(d) && RowLandsInTime(d)
  {
    var d := BuiltInRow("SIN", "BKK", [Knot(-330.0, 0.0), Knot(-1.0, 1.0)], SINGAPORE_TIMES, 400.0);
    BuiltInCustomersAreComplete("SIN");
    hide AreComplete, Quantile;
    var pattern := FromKnots(d.characteristics.arrivalPattern);
    var times := FromKnots(d.characteristics.preferredDepartureTime);
    QuantileBetween(times, 0.0, 1);
    InterpolateEnds(21_600.0, 28_800.0, 0.0, 0.7);
    forall p | 1.0 - MAX_FACTOR <= p < 1.0 ensures Quantile(pattern, p) < Deadline(21_600_000) {
      QuantileClamped(pattern, p);
    }
  }
}

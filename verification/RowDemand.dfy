/** From the rows of a demand file to what the batch reports: the streams of the rows are created, and
    the batch is run on them. */
module RowDemand {
  import opened BatchTheorems
  import opened ContinuousAttributeLite
  import opened DateTime
  import opened Delivery
  import opened DemandCreation
  import opened DemandStream
  import opened DemandStreamKey
  import opened DemandStreamModel
  import opened DriverCourses
  import opened DriverModel
  import opened DriverTheorems
  import opened GenerateDemand
  import opened RandomGeneration
  import opened RealArithmetic
  import opened StreamRuns
  import opened Sums
  import opened TrademgenService

  /** A row as the parser gives it, for dates that have texts. */
  ghost predicate IsRow(d: DemandStruct) {
    && IsCharacteristics(d.characteristics)
    && |d.dow| == DAYS_IN_WEEK
    && IsDate(d.firstDay) && IsDate(d.lastDay) && d.firstDay <= d.lastDay + 1
    && |d.origin| == 3 && |d.destination| == 3
  }

  /** Under the Poisson process the streams of the row have patterns that the generator can walk, and
      come to their sentinels. */
  ghost predicate Suits(m: Method, w: Sources, d: DemandStruct) {
    m.PoissonProcess? ==> forall position: nat, day: int :: AlwaysEnds(ConfigurationFor(w, d, position, day))
  }

  /** The days of the row. */
  function DaysOf(d: DemandStruct): seq<int>
    requires |d.dow| == DAYS_IN_WEEK && d.firstDay <= d.lastDay + 1
  {
    ActiveDays(d.dow, d.firstDay, d.lastDay + 1)
  }

  // ---------------------------------------------------------------- The streams of the rows

  /** What a stream is created as: its configuration and its drawn total. */
  datatype Plan = Plan(configuration: Configuration, total: int)

  /** The streams of one row, created when the shared generator stands at a position. */
  function RowPlans(w: Sources, d: DemandStruct, position: nat): (plans: seq<Plan>)
    requires |d.dow| == DAYS_IN_WEEK && d.firstDay <= d.lastDay + 1
    ensures |plans| == |DaysOf(d)|
  {
    seq(|DaysOf(d)|, j requires 0 <= j < |DaysOf(d)| =>
      Plan(ConfigurationFor(w, d, position + 3 * j, DaysOf(d)[j]), TotalFor(w, d, position + 3 * j)))
  }

  ghost predicate AreRows(rows: seq<DemandStruct>) {
    forall k :: 0 <= k < |rows| ==> IsRow(rows[k])
  }

  /** The streams of all rows, row by row; each takes three draws of the shared generator. */
  ghost function Plans(w: Sources, rows: seq<DemandStruct>): seq<Plan>
    requires AreRows(rows)
  {
    if rows == [] then []
    else
      var n := |rows| - 1;
      Plans(w, rows[..n]) + RowPlans(w, rows[n], 3 * |Plans(w, rows[..n])|)
  }

  /** The keys of one row, and of all rows. */
  function RowKeys(d: DemandStruct): seq<DemandStreamKey>
    requires |d.dow| == DAYS_IN_WEEK && d.firstDay <= d.lastDay + 1
  {
    seq(|DaysOf(d)|, j requires 0 <= j < |DaysOf(d)| => KeyOf(d, DaysOf(d)[j]))
  }

  ghost function Keys(rows: seq<DemandStruct>): seq<DemandStreamKey>
    requires AreRows(rows)
  {
    if rows == [] then []
    else
      var n := |rows| - 1;
      Keys(rows[..n]) + RowKeys(rows[n])
  }

  /** No two rows share a key. */
  ghost predicate HaveDistinctKeys(rows: seq<DemandStruct>)
    requires AreRows(rows)
  {
    forall i, j :: 0 <= i < j < |Keys(rows)| ==> Keys(rows)[i] != Keys(rows)[j]
  }

  ghost function ObjectsOf(streams: seq<DemandStream>): set<object> {
    set i, o | 0 <= i < |streams| && o in streams[i].Repr() :: o
  }

  /** The streams have just been created by these plans. */
  ghost predicate ArePlanned(streams: seq<DemandStream>, plans: seq<Plan>)
    reads ObjectsOf(streams)
  {
    && |streams| == |plans|
    && forall i :: 0 <= i < |streams| ==>
         assert streams[i].Repr() <= ObjectsOf(streams);
         IsPlanned(streams[i], plans[i])
  }

  lemma ObjectsOfService(service: TrademgenService)
    ensures ObjectsOf(service.demandStreams) == service.StreamObjects()
  {
  }

  ghost predicate IsPlanned(s: DemandStream, p: Plan)
    reads s, s.randomGenerationContext, s.requestDateTimeRandomGenerator, s.demandCharacteristicsRandomGenerator
  {
    && s.Valid() && s.Config() == p.configuration
    && s.Contents() == Fresh(p.total).(dateTimeLastRequest := s.dateTimeLastRequest)
  }

  lemma CreatedArePlanned(service: TrademgenService, before: seq<DemandStream>, plans: seq<Plan>, w: Sources,
                          d: DemandStruct, position: nat)
    requires IsRow(d) && ArePlanned(before, plans) && AreCreated(service, before, w, d, position, DaysOf(d))
    ensures ArePlanned(service.demandStreams, plans + RowPlans(w, d, position))
  {
    hide ConfigurationFor, TotalFor, DaysOf, Fresh, IsCharacteristics;
    var streams, all := service.demandStreams, plans + RowPlans(w, d, position);
    forall i | 0 <= i < |streams| ensures IsPlanned(streams[i], all[i]) {
      if i < |before| {
        assert streams[i] == before[i] && IsPlanned(before[i], plans[i]);
      } else {
        var j := i - |before|;
        assert IsCreated(streams[|before| + j], w, d, position + 3 * j, DaysOf(d)[j]);
      }
    }
  }

  // ---------------------------------------------------------------- The plans make a system

  ghost predicate IsGoodPlan(m: Method, w: Sources, p: Plan, key: DemandStreamKey) {
    && IsConfigured(p.configuration) && Supports(m, p.configuration)
    && (m.PoissonProcess? ==> AlwaysEnds(p.configuration))
    && p.configuration.key == key && p.configuration.lib == w.lib && IsKey(key)
  }

  lemma RowPlanIsGood(m: Method, w: Sources, d: DemandStruct, position: nat, j: nat)
    requires IsSources(w) && IsRow(d) && Suits(m, w, d) && j < |DaysOf(d)|
    ensures IsGoodPlan(m, w, RowPlans(w, d, position)[j], RowKeys(d)[j])
  {
    var day := DaysOf(d)[j];
    ActiveDaysAreTheActiveDays(d.dow, d.firstDay, d.lastDay + 1);
    assert day in DaysOf(d);
    ConfigureIsConfigured(KeyOf(d, day), d.characteristics, d.mean, d.stdDev,
                          w.engineOf(Seed(w.shared.uniform(position + 3 * j))),
                          w.engineOf(Seed(w.shared.uniform(position + 3 * j + 1))), w.lib);
    hide IsConfigured, IsPoissonPattern, EndsFrom, IsEngine, IsLibrary;
    assert m.PoissonProcess? ==> AlwaysEnds(ConfigurationFor(w, d, position + 3 * j, day));
  }

  ghost predicate AreGoodPlans(m: Method, w: Sources, plans: seq<Plan>, keys: seq<DemandStreamKey>) {
    |plans| == |keys| && forall i :: 0 <= i < |plans| ==> IsGoodPlan(m, w, plans[i], keys[i])
  }

  ghost predicate AllSuit(m: Method, w: Sources, rows: seq<DemandStruct>) {
    forall k :: 0 <= k < |rows| ==> Suits(m, w, rows[k])
  }

  lemma {:induction false} PlansAreGood(m: Method, w: Sources, rows: seq<DemandStruct>)
    requires IsSources(w) && AreRows(rows) && AllSuit(m, w, rows)
    ensures AreGoodPlans(m, w, Plans(w, rows), Keys(rows))
  {
    hide IsGoodPlan, IsSources, Suits, IsRow, DaysOf;
    if rows != [] {
      var n := |rows| - 1;
      PlansAreGood(m, w, rows[..n]);
      RowPlansAreGood(m, w, rows[n], 3 * |Plans(w, rows[..n])|);
    }
  }

  lemma RowPlansAreGood(m: Method, w: Sources, d: DemandStruct, position: nat)
    requires IsSources(w) && IsRow(d) && Suits(m, w, d)
    ensures AreGoodPlans(m, w, RowPlans(w, d, position), RowKeys(d))
  {
    hide IsGoodPlan, IsSources, Suits, DaysOf;
    forall j | 0 <= j < |DaysOf(d)| ensures IsGoodPlan(m, w, RowPlans(w, d, position)[j], RowKeys(d)[j]) {
      RowPlanIsGood(m, w, d, position, j);
    }
  }

  /** The configurations of the streams of the rows. */
  ghost predicate AreStreamsOf(w: Sources, rows: seq<DemandStruct>, cs: seq<Configuration>)
    requires AreRows(rows)
  {
    && |cs| == |Plans(w, rows)|
    && forall i :: 0 <= i < |cs| ==> cs[i] == Plans(w, rows)[i].configuration
  }

  /** Rows without a common key make a system: each stream is found under its own string. */
  lemma RowsMakeSystem(m: Method, w: Sources, rows: seq<DemandStruct>, cs: seq<Configuration>)
    requires IsSources(w) && HasDateTexts(w.lib) && AreRows(rows) && AllSuit(m, w, rows) && HaveDistinctKeys(rows)
    requires AreStreamsOf(w, rows, cs)
    ensures IsSystem(m, cs) && DrawsEnd(m, cs)
  {
    PlansAreGood(m, w, rows);
    hide IsSources, AreRows, AllSuit, Plans, Keys, HasDateTexts, IsConfigured, Supports, AlwaysEnds, ToString, IsKey;
    var plans, keys := Plans(w, rows), Keys(rows);
    assert forall i :: 0 <= i < |cs| ==> IsGoodPlan(m, w, plans[i], keys[i]);
    forall i, j | 0 <= i < j < |cs| ensures KeyStrings(cs)[i] != KeyStrings(cs)[j] {
      ToStringIsInjective(w.lib, keys[i], keys[j]);
    }
  }

  // ---------------------------------------------------------------- The first run

  /** What the streams of a service hold. */
  ghost function StatesOf(service: TrademgenService): (states: seq<State>)
    reads service, service.StreamObjects()
    ensures |states| == |service.demandStreams|
    ensures forall i :: 0 <= i < |states| ==>
              assert service.demandStreams[i].Repr() <= service.StreamObjects();
              states[i] == service.demandStreams[i].Contents()
  {
    seq(|service.demandStreams|, i requires 0 <= i < |service.demandStreams|
                                   reads service, service.StreamObjects() =>
      assert service.demandStreams[i].Repr() <= service.StreamObjects();
      service.demandStreams[i].Contents())
  }

  /** The start of the first run of a service with an empty queue. */
  ghost function FirstRun(service: TrademgenService): Run
    reads service, service.StreamObjects(), service.eventService, service.uniformGenerator
  {
    StartRun(StatesOf(service), service.eventService.actualTotalNumberOfRequests,
             service.uniformGenerator.engine, service.uniformGenerator.position)
  }

  lemma FreshIsReady(m: Method, c: Configuration, total: int, last: real)
    requires IsConfigured(c) && Supports(m, c)
    ensures IsReady(m, c, Fresh(total).(dateTimeLastRequest := last))
  {
    hide IsConfigured, Supports;
  }

  lemma PlannedStates(service: TrademgenService, plans: seq<Plan>, m: Method)
    requires ArePlanned(service.demandStreams, plans) && IsSystem(m, service.Configs())
    ensures |plans| == |service.Configs()| == |StatesOf(service)|
    ensures forall i :: 0 <= i < |plans| ==>
              && service.Configs()[i] == plans[i].configuration
              && IsReady(m, service.Configs()[i], StatesOf(service)[i])
              && StatesOf(service)[i].numberOfRequestsGeneratedSoFar == 0
              && StatesOf(service)[i].totalNumberOfRequestsToBeGenerated == plans[i].total
              && StatesOf(service)[i].stillHavingRequestsToBeGenerated && StatesOf(service)[i].firstDateTimeRequest
  {
    hide IsConfigured, Supports, IsConsistent, KeyStrings;
    forall i | 0 <= i < |plans|
      ensures service.Configs()[i] == plans[i].configuration
      ensures IsReady(m, service.Configs()[i], StatesOf(service)[i])
      ensures StatesOf(service)[i]
              == Fresh(plans[i].total).(dateTimeLastRequest := StatesOf(service)[i].dateTimeLastRequest)
    {
      assert IsPlanned(service.demandStreams[i], plans[i]);
      FreshIsReady(m, service.Configs()[i], plans[i].total, service.demandStreams[i].dateTimeLastRequest);
    }
  }

  lemma ConfigsOfPlanned(service: TrademgenService, w: Sources, rows: seq<DemandStruct>)
    requires AreRows(rows) && ArePlanned(service.demandStreams, Plans(w, rows))
    ensures AreStreamsOf(w, rows, service.Configs())
  {
    hide Plans, AreRows;
    var plans := Plans(w, rows);
    forall i | 0 <= i < |plans| ensures service.Configs()[i] == plans[i].configuration {
      assert IsPlanned(service.demandStreams[i], plans[i]);
    }
  }

  lemma FirstRunIsStart(service: TrademgenService, w: Sources, rows: seq<DemandStruct>, m: Method)
    requires IsSources(w) && HasDateTexts(w.lib) && AreRows(rows) && AllSuit(m, w, rows) && HaveDistinctKeys(rows)
    requires service.Valid() && service.eventService.events == map[]
    requires ArePlanned(service.demandStreams, Plans(w, rows))
    ensures AreStreamsOf(w, rows, service.Configs()) && DrawsEnd(m, service.Configs())
    ensures service.Shows(FirstRun(service)) && IsStart(m, service.Configs(), FirstRun(service))
  {
    hide ArePlanned, AreRows, IsSources, HasDateTexts, AllSuit, HaveDistinctKeys, AreStreamsOf, DrawsEnd, IsSystem,
         IsReady, Plans;
    ConfigsOfPlanned(service, w, rows);
    RowsMakeSystem(m, w, rows, service.Configs());
    PlannedStates(service, Plans(w, rows), m);
  }

  // ---------------------------------------------------------------- The methods

  /** The streams of one more row. */
  method LoadRow(service: TrademgenService, w: Sources, ghost rows: seq<DemandStruct>, d: DemandStruct)
    requires service.Valid() && IsSources(w) && service.uniformGenerator.engine == w.shared
    requires AreRows(rows) && IsRow(d)
    requires ArePlanned(service.demandStreams, Plans(w, rows))
    requires service.uniformGenerator.position == 3 * |Plans(w, rows)|
    modifies service, service.eventService, service.uniformGenerator
    ensures service.Valid() && AreRows(rows + [d])
    ensures ArePlanned(service.demandStreams, Plans(w, rows + [d]))
    ensures service.uniformGenerator.position == 3 * |Plans(w, rows + [d])|
    ensures service.eventService.events == old(service.eventService.events)
    ensures fresh(service.StreamObjects() - old(service.StreamObjects()))
  {
    hide *;
    OneMoreRow(w, rows, d);
    ghost var before, plans := service.demandStreams, Plans(w, rows);
    service.ObjectsAreApart();
    service.ObjectsAreAllocated();
    ObjectsOfService(service);
    RowFacts(d);
    CreateDemandCharacteristics(service, w, d);
    CreatedArePlanned(service, before, plans, w, d, 3 * |plans|);
  }

  lemma RowFacts(d: DemandStruct)
    requires IsRow(d)
    ensures IsCharacteristics(d.characteristics) && |d.dow| == DAYS_IN_WEEK && d.firstDay <= d.lastDay + 1
    ensures DaysOf(d) == ActiveDays(d.dow, d.firstDay, d.lastDay + 1)
  {
  }

  lemma OneMoreRow(w: Sources, rows: seq<DemandStruct>, d: DemandStruct)
    requires AreRows(rows) && IsRow(d)
    ensures AreRows(rows + [d])
    ensures Plans(w, rows + [d]) == Plans(w, rows) + RowPlans(w, d, 3 * |Plans(w, rows)|)
    ensures |Plans(w, rows + [d])| == |Plans(w, rows)| + |DaysOf(d)|
  {
    hide IsRow, RowPlans;
    assert (rows + [d])[..|rows|] == rows;
  }

  lemma PlansOfNone(w: Sources, rows: seq<DemandStruct>)
    requires AreRows(rows)
    ensures AreRows(rows[..0]) && Plans(w, rows[..0]) == [] && ArePlanned([], Plans(w, rows[..0]))
  {
  }

  lemma NoStreams(service: TrademgenService)
    requires service.demandStreams == []
    ensures service.StreamObjects() == {}
  {
  }

  /** The service that holds the streams of the rows, before its first run. */
  method LoadRows(w: Sources, rows: seq<DemandStruct>, m: Method) returns (service: TrademgenService, ghost first: Run)
    requires IsSources(w) && HasDateTexts(w.lib) && AreRows(rows) && AllSuit(m, w, rows) && HaveDistinctKeys(rows)
    ensures fresh(service) && fresh(service.eventService) && fresh(service.uniformGenerator)
    ensures fresh(service.StreamObjects())
    ensures service.Valid() && AreStreamsOf(w, rows, service.Configs()) && DrawsEnd(m, service.Configs())
    ensures service.Shows(first) && IsStart(m, service.Configs(), first)
  {
    service := LoadStreams(w, rows);
    hide *;
    FirstRunIsStart(service, w, rows, m);
    first := FirstRun(service);
  }

  method LoadStreams(w: Sources, rows: seq<DemandStruct>) returns (service: TrademgenService)
    requires IsSources(w) && AreRows(rows)
    ensures fresh(service) && fresh(service.eventService) && fresh(service.uniformGenerator)
    ensures fresh(service.StreamObjects())
    ensures service.Valid() && ArePlanned(service.demandStreams, Plans(w, rows))
    ensures service.eventService.events == map[]
  {
    hide *;
    var shared := new RandomGeneration(w.shared);
    service := new TrademgenService(shared);
    NoStreams(service);
    PlansOfNone(w, rows);
    var k := 0;
    while k < |rows|
      invariant k <= |rows| && service.Valid() && service.uniformGenerator == shared
      invariant AreRows(rows[..k]) && ArePlanned(service.demandStreams, Plans(w, rows[..k]))
      invariant shared.position == 3 * |Plans(w, rows[..k])|
      invariant service.eventService.events == map[]
      invariant forall o :: o in service.StreamObjects() ==> fresh(o)
    {
      RowOf(rows, k);
      ghost var current := service.StreamObjects();
      LoadRow(service, w, rows[..k], rows[k]);
      forall o | o in service.StreamObjects() ensures fresh(o) {
        if o !in current {
          assert o in service.StreamObjects() - current;
          assert !old(allocated(o));
        }
      }
      k := k + 1;
    }
    assert rows[..k] == rows;
  }

  lemma RowOf(rows: seq<DemandStruct>, k: nat)
    requires AreRows(rows) && k < |rows|
    ensures IsRow(rows[k]) && rows[..k] + [rows[k]] == rows[..k + 1]
  {
  }

  /** The streams of the rows, and any number of runs of the batch on them. */
  method GenerateDemandOfRows(w: Sources, rows: seq<DemandStruct>, m: Method, nbOfRuns: nat)
    returns (outcomes: seq<Outcome>, ghost cs: seq<Configuration>, ghost first: Run, ghost runs: seq<WholeRun>,
             ghost next: Run)
    requires IsSources(w) && HasDateTexts(w.lib) && AreRows(rows) && AllSuit(m, w, rows) && HaveDistinctKeys(rows)
    ensures AreStreamsOf(w, rows, cs) && IsStart(m, cs, first)
    ensures |outcomes| == nbOfRuns && AreRuns(m, cs, first, runs, outcomes, next)
  {
    hide IsStart, DrawsEnd, AreStreamsOf, AreRuns, IsSources, AllSuit, HasDateTexts, AreRows, HaveDistinctKeys;
    var service;
    service, first := LoadRows(w, rows, m);
    cs := service.Configs();
    outcomes, runs, next := GenerateDemand.GenerateDemand(service, m, nbOfRuns, first);
  }

  // ---------------------------------------------------------------- Delivery

  /** What a row must do for its requests to precede departure: every cumulative probability that can
      be drawn lies before the deadline of the earliest of its preferred times. */
  ghost predicate RowLandsInTime(d: DemandStruct)
    requires IsCharacteristics(d.characteristics)
  {
    var earliest := Quantile(FromKnots(d.characteristics.preferredDepartureTime), 0.0);
    forall p :: 1.0 - MAX_FACTOR <= p < 1.0 ==>
      Quantile(FromKnots(d.characteristics.arrivalPattern), p)
      < Deadline(MILLISECONDS_IN_ONE_SECOND * Truncate(earliest))
  }

  /** Exactly then each of its streams lands in time. */
  lemma StreamLandsIffRowDoes(w: Sources, d: DemandStruct, position: nat, day: int)
    requires IsSources(w) && IsCharacteristics(d.characteristics)
    ensures IsConfigured(ConfigurationFor(w, d, position, day))
    ensures LandsInTime(ConfigurationFor(w, d, position, day)) <==> RowLandsInTime(d)
  {
    hide Quantile, RequestDateTime, Deadline, IsBeforeDeparture;
    AreCoveredIffComplete(d.characteristics.customers);
    var c := ConfigurationFor(w, d, position, day);
    forall p | 1.0 - MAX_FACTOR <= p < 1.0
      ensures IsBeforeDeparture(c.key.date, EarliestTime(c), RequestDateTime(c.key.date, Quantile(c.arrivalPattern, p)))
              <==> Quantile(c.arrivalPattern, p) < Deadline(EarliestTime(c))
    {
      PassesIffBeforeDeadline(c.key.date, EarliestTime(c), Quantile(c.arrivalPattern, p));
    }
  }

  ghost predicate AllLandInTime(rows: seq<DemandStruct>)
    requires AreRows(rows)
  {
    forall k :: 0 <= k < |rows| ==> RowLandsInTime(rows[k])
  }

  lemma {:induction false} PlansLandInTime(w: Sources, rows: seq<DemandStruct>, i: nat)
    requires IsSources(w) && AreRows(rows) && AllLandInTime(rows) && i < |Plans(w, rows)|
    ensures var c := Plans(w, rows)[i].configuration; IsConfigured(c) && LandsInTime(c)
    decreases |rows|
  {
    hide IsSources, RowLandsInTime, ConfigurationFor, IsConfigured, LandsInTime, DaysOf, TotalFor;
    var n := |rows| - 1;
    var before := Plans(w, rows[..n]);
    if i < |before| {
      PlansLandInTime(w, rows[..n], i);
    } else {
      var j := i - |before|;
      StreamLandsIffRowDoes(w, rows[n], 3 * |before| + 3 * j, DaysOf(rows[n])[j]);
    }
  }

  /** Under order statistics every run on the streams of rows that land in time delivers what the
      streams drew. */
  lemma RowsDeliverTotals(w: Sources, rows: seq<DemandStruct>, cs: seq<Configuration>, first: Run,
                          runs: seq<WholeRun>, outcomes: seq<Outcome>, next: Run, k: nat)
    requires IsSources(w) && AreRows(rows) && AreStreamsOf(w, rows, cs) && AllLandInTime(rows)
    requires AreRuns(StatisticsOrder, cs, first, runs, outcomes, next) && k < |outcomes|
    ensures |runs| == |outcomes| && |outcomes[k].popped| == Sum(Targets(runs[k].start.streams))
  {
    hide IsSources, AllLandInTime, AreRows, Plans, IsConfigured, LandsInTime, AreRuns, IsRunOf, Targets;
    EachIsRun(StatisticsOrder, cs, first, runs, outcomes, next, k);
    forall i | 0 <= i < |cs| ensures IsConfigured(cs[i]) && LandsInTime(cs[i]) {
      PlansLandInTime(w, rows, i);
    }
    OrderRunDeliversIffStartDoes(cs, runs[k], outcomes[k]);
  }
}

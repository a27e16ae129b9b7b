/** DemandManager::generateFirstRequests of trademgen/command/DemandManager.cpp, on the service that
    holds the streams and the queue. */
module DemandManager {
  import opened DemandStreamModel
  import opened DriverInvariant
  import opened DriverModel
  import opened DriverSteps
  import opened DriverTheorems
  import opened Sums
  import opened TrademgenService

  /** The state after one turn of the loop of generateFirstRequests. */
  ghost function Seeded(m: Method, cs: seq<Configuration>, r: Run, ch: Choice): Run
    requires r.next < |r.streams|
  {
    if CanGenerate(m, cs, Visit(r), r.next) then Generate(m, cs, Visit(r), r.next, ch) else Visit(r)
  }

  /** The trace of a run, up to state r, whose first i streams have been seeded; with i one more than
      the number of streams, the status has been updated too. */
  ghost predicate IsSeeding(m: Method, cs: seq<Configuration>, start: Run, trace: seq<Run>, r: Run, i: nat) {
    && IsTrace(m, cs, trace) && trace[0] == start && trace[|trace| - 1] == r
    && r.next == i && r.stamps == []
    && Totals(r.streams) == Totals(start.streams)
  }

  lemma StartOfSeeding(m: Method, cs: seq<Configuration>, start: Run)
    requires IsStart(m, cs, start)
    ensures IsSeeding(m, cs, start, [start], start, 0)
  {
  }

  lemma SeedingGoesOnBy(m: Method, cs: seq<Configuration>, start: Run, trace: seq<Run>, r: Run, i: nat, ch: Choice)
    requires IsSeeding(m, cs, start, trace, r, i) && i < |cs| && r.next < |r.streams|
    requires CanGenerate(m, cs, Visit(r), i) ==> IsChoice(m, cs, Visit(r), i, ch)
    ensures IsSeeding(m, cs, start, trace + [Seeded(m, cs, r, ch)], Seeded(m, cs, r, ch), i + 1)
  {
    TraceHasInv(m, cs, trace, |trace| - 1);
    SeedFacts(m, cs, r);
    var r' := Seeded(m, cs, r, ch);
    assert SeedStep(m, cs, r, ch, r');
    assert Step(m, cs, r, r');
    hide Step, Inv, SeedStep, Seeded;
    StepAdvances(m, cs, r, r');
    TraceExtends(m, cs, trace, r');
    SeededNext(m, cs, r, ch);
  }

  lemma SeededNext(m: Method, cs: seq<Configuration>, r: Run, ch: Choice)
    requires r.next < |r.streams|
    ensures Seeded(m, cs, r, ch).next == r.next + 1 && Seeded(m, cs, r, ch).stamps == r.stamps
  {
    hide NextOf;
  }

  lemma StatusUpdateEndsSeeding(m: Method, cs: seq<Configuration>, start: Run, trace: seq<Run>, r: Run)
    requires IsSeeding(m, cs, start, trace, r, |cs|)
    ensures IsSeeding(m, cs, start, trace + [StatusUpdate(r)], StatusUpdate(r), |cs| + 1)
    ensures StatusUpdate(r).actual == Sum(Totals(r.streams)) == Sum(Totals(start.streams))
  {
    assert Step(m, cs, r, StatusUpdate(r));
    TraceExtends(m, cs, trace, StatusUpdate(r));
  }

  lemma SeedingFacts(m: Method, cs: seq<Configuration>, start: Run, trace: seq<Run>, r: Run, i: nat)
    requires IsSeeding(m, cs, start, trace, r, i) && i < |cs|
    ensures IsWellFormed(m, cs, r) && IsWellFormed(m, cs, Visit(r)) && r.next == i
    ensures Totals(r.streams) == Totals(start.streams)
  {
    TraceHasInv(m, cs, trace, |trace| - 1);
    SeedFacts(m, cs, r);
  }

  /** The total of the first i streams. */
  ghost function TotalOfFirst(start: Run, i: nat): int {
    if i <= |start.streams| then Sum(Totals(start.streams)[..i]) else 0
  }

  lemma TotalGrows(start: Run, i: nat)
    ensures i < |start.streams| ==> TotalOfFirst(start, i + 1) == TotalOfFirst(start, i) + Totals(start.streams)[i]
    ensures TotalOfFirst(start, 0) == 0 && TotalOfFirst(start, |start.streams|) == Sum(Totals(start.streams))
  {
    SumOfPrefix(Totals(start.streams), if i <= |start.streams| then i else 0);
  }

  lemma SeededCases(m: Method, cs: seq<Configuration>, r: Run, ch: Choice)
    requires r.next < |r.streams|
    ensures CanGenerate(m, cs, Visit(r), r.next) ==> Seeded(m, cs, r, ch) == Generate(m, cs, Visit(r), r.next, ch)
    ensures !CanGenerate(m, cs, Visit(r), r.next) ==> Seeded(m, cs, r, ch) == Visit(r)
  {
    hide CanGenerate, Generate;
  }

  lemma TotalsMatch(streams: seq<State>)
    ensures |Totals(streams)| == |streams|
  {
  }

  /** One turn of the loop of generateFirstRequests, added to the trace and to the count. */
  method SeedAndRecord(service: TrademgenService, i: nat, m: Method, count: int, ghost cs: seq<Configuration>,
                       ghost start: Run, ghost trace: seq<Run>, ghost r: Run)
    returns (count': int, ghost r': Run)
    requires service.Valid() && cs == service.Configs() && i < |cs|
    requires IsSeeding(m, cs, start, trace, r, i) && service.Shows(r) && count == TotalOfFirst(start, i)
    modifies service.StreamObjects(), service.eventService, service.uniformGenerator
    ensures IsSeeding(m, cs, start, trace + [r'], r', i + 1) && service.Shows(r')
    ensures count' == TotalOfFirst(start, i + 1)
  {
    hide *;
    service.IsApart(r);
    service.ObjectsAreAllocated();
    SeedingFacts(m, cs, start, trace, r, i);
    TotalGrows(start, i);
    TotalsMatch(r.streams);
    TotalsMatch(start.streams);
    var number := service.TotalOf(i, r);
    count' := count + number;
    ghost var ch := service.SeedStream(i, m, r);
    SeedingGoesOnBy(m, cs, start, trace, r, i, ch);
    SeededCases(m, cs, r, ch);
    r' := Seeded(m, cs, r, ch);
  }

  /** The loop of generateFirstRequests. */
  method SeedAll(service: TrademgenService, m: Method, ghost start: Run)
    returns (count: int, ghost trace: seq<Run>, ghost r: Run)
    requires service.Valid() && service.Shows(start) && IsStart(m, service.Configs(), start)
    modifies service.StreamObjects(), service.eventService, service.uniformGenerator
    ensures IsSeeding(m, service.Configs(), start, trace, r, |service.Configs()|) && service.Shows(r)
    ensures count == Sum(Totals(start.streams))
  {
    hide *;
    ghost var cs, objects := service.Configs(), service.StreamObjects();
    service.IsApart(start);
    StartOfSeeding(m, cs, start);
    TotalGrows(start, 0);
    count, trace, r := 0, [start], start;
    var i: nat := 0;
    while i < |service.demandStreams|
      invariant i <= |cs| == |service.demandStreams|
      invariant service.Valid() && service.Configs() == cs && service.StreamObjects() == objects
      invariant IsSeeding(m, cs, start, trace, r, i) && service.Shows(r)
      invariant count == TotalOfFirst(start, i)
    {
      count, r := SeedAndRecord(service, i, m, count, cs, start, trace, r);
      trace := trace + [r];
      i := i + 1;
    }
  }

  /** DemandManager::generateFirstRequests.  The trace shows every state it goes through. */
  method GenerateFirstRequests(service: TrademgenService, m: Method, ghost start: Run)
    returns (count: int, ghost trace: seq<Run>, ghost r: Run)
    requires service.Valid() && service.Shows(start) && IsStart(m, service.Configs(), start)
    modifies service.StreamObjects(), service.eventService, service.uniformGenerator
    ensures IsSeeding(m, service.Configs(), start, trace, r, |service.Configs()| + 1) && service.Shows(r)
    ensures count == Sum(Totals(start.streams)) == r.actual
  {
    ghost var cs, objects := service.Configs(), service.StreamObjects();
    assert service !in objects;
    hide IsSeeding, IsStart, Totals, Sum;
    count, trace, r := SeedAll(service, m, start);
    assert service.Valid() && cs == service.Configs();
    StatusUpdateEndsSeeding(m, cs, start, trace, r);
    service.UpdateStatus(count, r);
    r := StatusUpdate(r);
    trace := trace + [r];
  }
}

/** The batch of trademgen/batches/trademgen_generateDemand.cpp: for every run it seeds the queue,
    pops and refills it until it is empty, and resets the service. */
module GenerateDemand {
  import opened DemandManager
  import opened DemandStreamModel
  import opened DriverCourses
  import opened DriverInvariant
  import opened DriverModel
  import opened DriverSteps
  import opened DriverTheorems
  import opened EventQueue
  import opened StreamRuns
  import opened Sums
  import opened TrademgenService

  /** The next request of stream i is not earlier than t. */
  ghost predicate NextIsNotBefore(m: Method, cs: seq<Configuration>, p: Run, i: nat, t: int)
    requires CanGenerate(m, cs, p, i)
  {
    t <= GeneratedRequest(m, cs, p, i).requestDateTime
  }

  /** What a turn of the main loop may rely on once it has popped the event at a stamp. */
  lemma TurnFacts(m: Method, cs: seq<Configuration>, r: Run, stamp: int)
    requires IsInMainLoop(m, cs, r) && IsEarliest(r.queue, stamp)
    ensures IsBookingAt(cs, r.queue, stamp)
    ensures IsWellFormed(m, cs, r) && IsWellFormed(m, cs, Pop(cs, r, stamp))
    ensures var p, i := Pop(cs, r, stamp), StreamAt(cs, r.queue, stamp);
            CanGenerate(m, cs, p, i) ==> NextIsNotBefore(m, cs, p, i, r.queue[stamp].request.requestDateTime)
  {
    PopKeepsSound(m, cs, r, stamp);
    var p, i := Pop(cs, r, stamp), StreamAt(cs, r.queue, stamp);
    SoundIsWellFormed(m, cs, r);
    SoundIsWellFormed(m, cs, p);
    hide Inv, IsWellFormed, IsSound, Pop, StreamAt, DemandStreamModel.StillHavingRequestsToBeGenerated, NextOf;
    if CanGenerate(m, cs, p, i) {
      SanityCheckNeverFails(m, cs, r, stamp);
    }
  }

  /** After a pop: the next request of the stream, if it has one, with the sanity check on it. */
  method Refill(service: TrademgenService, m: Method, popped: BookingRequest, ghost p: Run, ghost i: nat)
    returns (ghost ch: Choice)
    requires service.Valid() && service.Shows(p) && IsWellFormed(m, service.Configs(), p)
    requires popped.generatorKey in KeyStrings(service.Configs())
    requires i == Find(KeyStrings(service.Configs()), popped.generatorKey)
    requires CanGenerate(m, service.Configs(), p, i) ==>
               NextIsNotBefore(m, service.Configs(), p, i, popped.requestDateTime)
    modifies service.StreamObjects(), service.eventService, service.uniformGenerator
    ensures CanGenerate(m, service.Configs(), p, i) ==>
              && IsChoice(m, service.Configs(), p, i, ch)
              && service.Shows(Generate(m, service.Configs(), p, i, ch))
    ensures !CanGenerate(m, service.Configs(), p, i) ==> service.Shows(p)
  {
    hide IsWellFormed, Generate, NextOf, IsChoice, DemandStreamModel.StillHavingRequestsToBeGenerated;
    ghost var cs := service.Configs();
    ch := Choice(0);
    var still, _ := service.StillHavingRequestsToBeGenerated(popped.generatorKey, m, map[]);
    assert still == CanGenerate(m, cs, p, i);
    if still {
      var next: BookingRequest;
      next, ch := service.GenerateNextRequest(popped.generatorKey, m, p);
      var duration := next.requestDateTime - popped.requestDateTime;
      if duration < 0 {
        assert false;
      }
    }
  }

  /** The earliest event, a booking request. */
  method PopRequest(service: TrademgenService, m: Method, ghost cs: seq<Configuration>, ghost r: Run)
    returns (popped: BookingRequest, ghost stamp: int)
    requires service.Valid() && service.Shows(r)
    requires IsInMainLoop(m, cs, r) && r.queue != map[]
    modifies service.eventService
    ensures IsEarliest(r.queue, stamp) && r.queue[stamp] == Booking(popped)
    ensures IsBookingAt(cs, r.queue, stamp) && |r.accounts| == |cs|
    ensures service.Shows(Pop(cs, r, stamp))
    ensures IsWellFormed(m, cs, r) && IsWellFormed(m, cs, Pop(cs, r, stamp))
    ensures var p, i := Pop(cs, r, stamp), StreamAt(cs, r.queue, stamp);
            CanGenerate(m, cs, p, i) ==> NextIsNotBefore(m, cs, p, i, popped.requestDateTime)
  {
    var e: Event;
    e, stamp := service.PopEvent(cs, r);
    TurnFacts(m, cs, r, stamp);
    hide Pop, StreamAt, NextIsNotBefore, Inv, DemandStreamModel.StillHavingRequestsToBeGenerated;
    popped := e.request;
  }

  /** One turn of the main loop. */
  method LoopTurn(service: TrademgenService, m: Method, ghost cs: seq<Configuration>, ghost r: Run)
    returns (popped: BookingRequest, ghost stamp: int, ghost ch: Choice, ghost r': Run)
    requires service.Valid() && cs == service.Configs() && service.Shows(r)
    requires IsInMainLoop(m, cs, r) && r.queue != map[]
    modifies service.StreamObjects(), service.eventService, service.uniformGenerator
    ensures LoopStep(m, cs, r, stamp, ch, r') && service.Shows(r')
    ensures stamp in r.queue && r.queue[stamp] == Booking(popped)
  {
    hide Inv, IsWellFormed, Pop, Generate, NextOf, IsChoice, NextIsNotBefore, CanGenerate;
    popped, stamp := PopRequest(service, m, cs, r);
    ghost var p, i := Pop(cs, r, stamp), StreamAt(cs, r.queue, stamp);
    ch := Refill(service, m, popped, p, i);
    r' := if CanGenerate(m, cs, p, i) then Generate(m, cs, p, i, ch) else p;
  }

  // ---------------------------------------------------------------- The main loop

  /** The requests popped so far are the earliest events of the states of the main loop. */
  ghost predicate ArePopped(cs: seq<Configuration>, trace: seq<Run>, stamps: seq<int>, popped: seq<BookingRequest>) {
    && |stamps| == |popped| && |trace| == |cs| + 2 + |popped|
    && forall j :: 0 <= j < |popped| ==>
         var q := trace[|cs| + 1 + j].queue;
         IsEarliest(q, stamps[j]) && q[stamps[j]] == Booking(popped[j])
  }

  /** The trace of a run, up to state r, that has come to its main loop. */
  ghost predicate IsPlaying(m: Method, cs: seq<Configuration>, start: Run, trace: seq<Run>, r: Run,
                            popped: seq<BookingRequest>)
  {
    && IsTrace(m, cs, trace) && trace[0] == start && trace[|trace| - 1] == r
    && r.next == |cs| + 1
    && Totals(r.streams) == Totals(start.streams)
    && ArePopped(cs, trace, r.stamps, popped)
  }

  lemma SeededIsPlaying(m: Method, cs: seq<Configuration>, start: Run, trace: seq<Run>, r: Run)
    requires IsSeeding(m, cs, start, trace, r, |cs| + 1)
    ensures IsPlaying(m, cs, start, trace, r, [])
  {
    hide IsWellFormed, IsStart, Step;
    TraceAdvances(m, cs, trace, |trace| - 1);
  }

  lemma LoopStepPops(m: Method, cs: seq<Configuration>, r: Run, stamp: int, ch: Choice, r': Run)
    requires LoopStep(m, cs, r, stamp, ch, r')
    ensures r'.stamps == r.stamps + [stamp] && r'.next == r.next && IsEarliest(r.queue, stamp)
  {
    hide NextOf, IsSystem, IsReady, IsChoice, IsEarliest;
  }

  lemma PlayGoesOn(m: Method, cs: seq<Configuration>, start: Run, trace: seq<Run>, r: Run, popped: seq<BookingRequest>,
                   stamp: int, ch: Choice, q: BookingRequest, r': Run)
    requires IsPlaying(m, cs, start, trace, r, popped) && LoopStep(m, cs, r, stamp, ch, r')
    requires stamp in r.queue && r.queue[stamp] == Booking(q)
    ensures IsPlaying(m, cs, start, trace + [r'], r', popped + [q])
  {
    hide LoopStep, Inv, IsEarliest, ArePopped, Totals;
    TraceHasInv(m, cs, trace, |trace| - 1);
    LoopStepPops(m, cs, r, stamp, ch, r');
    assert Step(m, cs, r, r');
    hide Step;
    TraceExtends(m, cs, trace, r');
    StepAdvances(m, cs, r, r');
    PoppedExtends(cs, trace, r.stamps, popped, stamp, q, r');
  }

  lemma PoppedExtends(cs: seq<Configuration>, trace: seq<Run>, stamps: seq<int>, popped: seq<BookingRequest>,
                      stamp: int, q: BookingRequest, r': Run)
    requires ArePopped(cs, trace, stamps, popped) && trace != []
    requires IsEarliest(trace[|trace| - 1].queue, stamp) && trace[|trace| - 1].queue[stamp] == Booking(q)
    ensures ArePopped(cs, trace + [r'], stamps + [stamp], popped + [q])
  {
    hide IsEarliest;
    var longer := trace + [r'];
    forall j | 0 <= j < |popped| + 1
      ensures IsEarliest(longer[|cs| + 1 + j].queue, (stamps + [stamp])[j])
      ensures (stamps + [stamp])[j] in longer[|cs| + 1 + j].queue
              && longer[|cs| + 1 + j].queue[(stamps + [stamp])[j]] == Booking((popped + [q])[j])
    {
      if j < |popped| {
        assert longer[|cs| + 1 + j] == trace[|cs| + 1 + j];
        assert IsEarliest(trace[|cs| + 1 + j].queue, stamps[j]);
        EarliestIsIn(trace[|cs| + 1 + j].queue, stamps[j]);
      } else {
        assert longer[|cs| + 1 + j] == trace[|trace| - 1];
        EarliestIsIn(trace[|trace| - 1].queue, stamp);
      }
    }
  }

  lemma EarliestIsIn(q: Queue, stamp: int)
    requires IsEarliest(q, stamp)
    ensures stamp in q
  {
  }

  lemma PlayingFacts(m: Method, cs: seq<Configuration>, start: Run, trace: seq<Run>, r: Run,
                     popped: seq<BookingRequest>, bounds: seq<int>)
    requires IsPlaying(m, cs, start, trace, r, popped) && EndWithin(m, cs, start, bounds)
    ensures IsInMainLoop(m, cs, r)
    ensures |popped| <= Sum(bounds)
  {
    hide Inv, Step, IsStart, IsWellFormed, EndWithin;
    TraceHasInv(m, cs, trace, |trace| - 1);
    RunsAreFinite(m, cs, trace, bounds);
  }

  /** The main loop ends, with an empty queue, if the streams do; by RunEndsIffStreamsEnd it cannot end
      otherwise. */
  method MainLoop(service: TrademgenService, m: Method, ghost start: Run, ghost bounds: seq<int>,
                  ghost seeded: seq<Run>, ghost first: Run)
    returns (popped: seq<BookingRequest>, ghost trace: seq<Run>, ghost r: Run)
    requires service.Valid() && EndWithin(m, service.Configs(), start, bounds)
    requires IsPlaying(m, service.Configs(), start, seeded, first, []) && service.Shows(first)
    modifies service.StreamObjects(), service.eventService, service.uniformGenerator
    ensures IsPlaying(m, service.Configs(), start, trace, r, popped) && service.Shows(r)
    ensures IsComplete(m, service.Configs(), r)
  {
    hide Inv, IsPlaying, IsWellFormed, EndWithin;
    ghost var cs, objects := service.Configs(), service.StreamObjects();
    assert service !in objects;
    popped, trace, r := [], seeded, first;
    PlayingFacts(m, cs, start, trace, r, popped, bounds);
    var done := IsQueueDone(service, r);
    while !done
      invariant service.Valid() && service.Configs() == cs && service.StreamObjects() == objects
      invariant IsPlaying(m, cs, start, trace, r, popped) && service.Shows(r)
      invariant IsInMainLoop(m, cs, r)
      invariant done <==> r.queue == map[]
      invariant |popped| <= Sum(bounds)
      decreases Sum(bounds) - |popped|
    {
      var q: BookingRequest;
      q, r := PopAndRecord(service, m, cs, start, bounds, popped, trace, r);
      popped, trace := popped + [q], trace + [r];
      done := IsQueueDone(service, r);
    }
  }

  method IsQueueDone(service: TrademgenService, ghost r: Run) returns (done: bool)
    requires service.Valid() && service.Shows(r)
    ensures done <==> r.queue == map[]
  {
    done := service.eventService.IsQueueDone();
  }

  method PopAndRecord(service: TrademgenService, m: Method, ghost cs: seq<Configuration>, ghost start: Run,
                      ghost bounds: seq<int>, ghost popped: seq<BookingRequest>, ghost trace: seq<Run>, ghost r: Run)
    returns (q: BookingRequest, ghost r': Run)
    requires service.Valid() && cs == service.Configs() && EndWithin(m, cs, start, bounds)
    requires IsPlaying(m, cs, start, trace, r, popped) && service.Shows(r)
    requires IsInMainLoop(m, cs, r) && r.queue != map[]
    modifies service.StreamObjects(), service.eventService, service.uniformGenerator
    ensures IsPlaying(m, cs, start, trace + [r'], r', popped + [q]) && service.Shows(r')
    ensures IsInMainLoop(m, cs, r') && |popped| + 1 <= Sum(bounds)
  {
    hide IsInMainLoop, LoopStep, EndWithin, IsPlaying, IsWellFormed;
    ghost var stamp, ch;
    q, stamp, ch, r' := LoopTurn(service, m, cs, r);
    PlayGoesOn(m, cs, start, trace, r, popped, stamp, ch, q, r');
    PlayingFacts(m, cs, start, trace + [r'], r', popped + [q], bounds);
  }

  // ---------------------------------------------------------------- The batch

  /** What a run reports: the count that generateFirstRequests returned, and the popped requests. */
  datatype Outcome = Outcome(count: int, popped: seq<BookingRequest>)

  /** A whole run: from its start to its end, a state with an empty queue, by way of the trace. */
  datatype WholeRun = WholeRun(start: Run, trace: seq<Run>, end: Run)

  ghost predicate IsRunOf(m: Method, cs: seq<Configuration>, w: WholeRun, o: Outcome) {
    && IsPlaying(m, cs, w.start, w.trace, w.end, o.popped)
    && IsComplete(m, cs, w.end)
    && o.count == Sum(Totals(w.start.streams))
  }

  lemma RunTrace(m: Method, cs: seq<Configuration>, w: WholeRun, o: Outcome)
    requires IsRunOf(m, cs, w, o)
    ensures IsTrace(m, cs, w.trace) && ArePopped(cs, w.trace, w.end.stamps, o.popped) && IsComplete(m, cs, w.end)
    ensures |w.trace| == |cs| + 2 + |o.popped| && w.trace[0] == w.start && w.trace[|w.trace| - 1] == w.end
    ensures |w.end.stamps| == |o.popped| && o.count == Sum(Totals(w.start.streams))
  {
    hide IsStart, Step, IsComplete, IsEarliest, Totals, Sum;
  }

  /** One run. */
  method GenerateRun(service: TrademgenService, m: Method, ghost start: Run, ghost bounds: seq<int>)
    returns (o: Outcome, ghost w: WholeRun)
    requires service.Valid() && EndWithin(m, service.Configs(), start, bounds)
    requires service.Shows(start) && IsStart(m, service.Configs(), start)
    modifies service.StreamObjects(), service.eventService, service.uniformGenerator
    ensures IsRunOf(m, service.Configs(), w, o) && w.start == start && service.Shows(w.end)
  {
    hide IsPlaying, IsSeeding, IsStart, EndWithin, IsComplete, Totals;
    ghost var cs, objects := service.Configs(), service.StreamObjects();
    assert service !in objects;
    var count: int;
    ghost var trace, r;
    count, trace, r := GenerateFirstRequests(service, m, start);
    assert cs == service.Configs() && objects == service.StreamObjects() && service.Valid();
    SeededIsPlaying(m, cs, start, trace, r);
    var popped: seq<BookingRequest>;
    popped, trace, r := MainLoop(service, m, start, bounds, trace, r);
    o, w := Outcome(count, popped), WholeRun(start, trace, r);
  }

  /** The totals that a reset draws, one for each stream, in order. */
  function DrawnTotals(cs: seq<Configuration>, r: Run): (totals: seq<int>)
    ensures |totals| == |cs|
  {
    seq(|cs|, i requires 0 <= i < |cs| =>
      RequestsToBeGenerated(r.tape.normal(SharedPosition(r) + i, cs[i].mean, cs[i].stdDev)))
  }

  /** The start of the run that follows a reset. */
  function NextStart(cs: seq<Configuration>, r: Run): Run
    requires |cs| == |r.streams|
  {
    StartRun(seq(|cs|, i requires 0 <= i < |cs| => Reset(r.streams[i], DrawnTotals(cs, r)[i])), r.actual,
             r.tape, SharedPosition(r) + |cs|)
  }

  /** The streams of the next run draw their totals in turn, from where the last run left the shared
      generator; each is the whole number nearest to its draw.  Nothing has been generated. */
  lemma NextStartDrawsTotals(cs: seq<Configuration>, r: Run, i: nat)
    requires i < |cs| == |r.streams|
    ensures var next := NextStart(cs, r);
            var s, draw := next.streams[i], r.tape.normal(r.base + |r.order| + i, cs[i].mean, cs[i].stdDev);
            && s.totalNumberOfRequestsToBeGenerated as real - 0.5 <= draw
               < s.totalNumberOfRequestsToBeGenerated as real + 0.5
            && s.numberOfRequestsGeneratedSoFar == 0 && s.cumulativeProbabilitySoFar == 0.0
            && s.stillHavingRequestsToBeGenerated && s.firstDateTimeRequest
            && s.dateTimePosition == r.streams[i].dateTimePosition
            && s.characteristicsPosition == r.streams[i].characteristicsPosition
            && next.tape == r.tape && next.base == r.base + |r.order| + |cs| && next.order == []
  {
    hide RequestsToBeGenerated;
  }

  lemma ResetIsReady(m: Method, c: Configuration, s: State, total: int)
    requires IsReady(m, c, s)
    ensures IsReady(m, c, Reset(s, total))
  {
    hide IsConfigured, IsPoissonPattern;
  }

  lemma NextStartIsStart(m: Method, cs: seq<Configuration>, r: Run)
    requires IsWellFormed(m, cs, r)
    ensures IsStart(m, cs, NextStart(cs, r))
  {
    hide IsSystem, IsReady, IsConfigured, DrawnTotals;
    var next := NextStart(cs, r);
    forall i | 0 <= i < |cs| ensures IsReady(m, cs[i], next.streams[i]) {
      ResetIsReady(m, cs[i], r.streams[i], DrawnTotals(cs, r)[i]);
    }
    assert IsWellFormed(m, cs, next);
    hide IsWellFormed;
  }

  /** The reset between two runs. */
  method ResetService(service: TrademgenService, ghost cs: seq<Configuration>, ghost r: Run)
    requires service.Valid() && service.Shows(r) && cs == service.Configs()
    modifies service.StreamObjects(), service.eventService, service.uniformGenerator
    ensures |cs| == |r.streams| && service.Shows(NextStart(cs, r))
  {
    hide *;
    NothingIsReset(service, r);
    service.ObjectsAreApart();
    ghost var totals := service.Reset(r.streams);
    ResetShowsNextStart(service, cs, r, totals);
  }

  lemma NothingIsReset(service: TrademgenService, r: Run)
    requires service.Shows(r)
    ensures service.AreReset(r.streams, [], 0, service.uniformGenerator.position)
    ensures |r.streams| == |service.demandStreams| == |service.Configs()|
    ensures r.tape == service.uniformGenerator.engine && SharedPosition(r) == service.uniformGenerator.position
    ensures r.actual == service.eventService.actualTotalNumberOfRequests
  {
  }

  lemma ResetShowsNextStart(service: TrademgenService, cs: seq<Configuration>, r: Run, totals: seq<int>)
    requires |cs| == |r.streams| == |service.demandStreams| && cs == service.Configs()
    requires service.AreReset(r.streams, totals, |service.demandStreams|, SharedPosition(r))
    requires service.eventService.events == map[]
    requires r.actual == service.eventService.actualTotalNumberOfRequests
    requires r.tape == service.uniformGenerator.engine
    requires service.uniformGenerator.position == SharedPosition(r) + |cs|
    ensures service.Shows(NextStart(cs, r))
  {
    hide Reset, RequestsToBeGenerated;
    assert totals == DrawnTotals(cs, r);
    assert SharedPosition(NextStart(cs, r)) == SharedPosition(r) + |cs|;
  }

  /** The next run starts from the reset of the last state of this one. */
  ghost predicate Follows(cs: seq<Configuration>, w: WholeRun, next: Run) {
    |cs| == |w.end.streams| && next == NextStart(cs, w.end)
  }

  /** The runs made so far, each after the reset of the one before, and the start of the next one. */
  ghost predicate AreRuns(m: Method, cs: seq<Configuration>, first: Run, runs: seq<WholeRun>,
                          outcomes: seq<Outcome>, next: Run)
  {
    if runs == [] then outcomes == [] && next == first
    else
      var n := |runs| - 1;
      && |outcomes| == n + 1
      && AreRuns(m, cs, first, runs[..n], outcomes[..n], runs[n].start)
      && IsRunOf(m, cs, runs[n], outcomes[n])
      && Follows(cs, runs[n], next)
  }

  lemma RunAdded(m: Method, cs: seq<Configuration>, first: Run, runs: seq<WholeRun>, outcomes: seq<Outcome>,
                 w: WholeRun, o: Outcome, next: Run)
    requires AreRuns(m, cs, first, runs, outcomes, w.start) && IsRunOf(m, cs, w, o) && Follows(cs, w, next)
    ensures AreRuns(m, cs, first, runs + [w], outcomes + [o], next)
  {
    hide IsRunOf, Follows;
    assert |runs| == |outcomes|;
    assert (runs + [w])[..|runs|] == runs && (outcomes + [o])[..|outcomes|] == outcomes;
  }

  /** generateDemand: every run is a complete run of the state machine, and each starts from the
      reset of the one before. */
  method GenerateDemand(service: TrademgenService, m: Method, nbOfRuns: nat, ghost first: Run)
    returns (outcomes: seq<Outcome>, ghost runs: seq<WholeRun>, ghost next: Run)
    requires service.Valid() && DrawsEnd(m, service.Configs())
    requires service.Shows(first) && IsStart(m, service.Configs(), first)
    modifies service.StreamObjects(), service.eventService, service.uniformGenerator
    ensures |outcomes| == nbOfRuns && AreRuns(m, service.Configs(), first, runs, outcomes, next)
    ensures service.Shows(next) && IsStart(m, service.Configs(), next)
  {
    hide IsStart, DrawsEnd, IsRunOf, Follows;
    ghost var cs, objects := service.Configs(), service.StreamObjects();
    assert service !in objects;
    outcomes, runs, next := [], [], first;
    for runIdx := 0 to nbOfRuns
      invariant service.Valid() && service.Configs() == cs && service.StreamObjects() == objects
      invariant |outcomes| == runIdx && AreRuns(m, cs, first, runs, outcomes, next)
      invariant service.Shows(next) && IsStart(m, cs, next)
    {
      var o: Outcome;
      ghost var w;
      o, w, next := GenerateRunAndReset(service, m, next);
      RunAdded(m, cs, first, runs, outcomes, w, o, next);
      outcomes, runs := outcomes + [o], runs + [w];
    }
  }

  lemma EndIsWellFormed(m: Method, cs: seq<Configuration>, w: WholeRun, o: Outcome)
    requires IsRunOf(m, cs, w, o)
    ensures IsWellFormed(m, cs, w.end)
  {
    assert IsSound(m, cs, w.end);
    SoundIsWellFormed(m, cs, w.end);
  }

  /** A run, and the reset after it. */
  method GenerateRunAndReset(service: TrademgenService, m: Method, ghost start: Run)
    returns (o: Outcome, ghost w: WholeRun, ghost next: Run)
    requires service.Valid() && DrawsEnd(m, service.Configs())
    requires service.Shows(start) && IsStart(m, service.Configs(), start)
    modifies service.StreamObjects(), service.eventService, service.uniformGenerator
    ensures IsRunOf(m, service.Configs(), w, o) && w.start == start && Follows(service.Configs(), w, next)
    ensures service.Shows(next) && IsStart(m, service.Configs(), next)
  {
    hide IsStart, DrawsEnd, NextStart, IsRunOf;
    ghost var cs, objects := service.Configs(), service.StreamObjects();
    assert service !in objects;
    ghost var bounds := StartEnds(m, cs, start);
    o, w := GenerateRun(service, m, start, bounds);
    assert cs == service.Configs() && objects == service.StreamObjects() && service.Valid();
    ResetService(service, cs, w.end);
    EndIsWellFormed(m, cs, w, o);
    next := NextStart(cs, w.end);
    NextStartIsStart(m, cs, w.end);
  }

  // ---------------------------------------------------------------- The runs of a batch

  lemma RunsMatch(m: Method, cs: seq<Configuration>, first: Run, runs: seq<WholeRun>, outcomes: seq<Outcome>, next: Run)
    requires AreRuns(m, cs, first, runs, outcomes, next)
    ensures |runs| == |outcomes|
  {
  }

  lemma {:induction false} EachIsRun(m: Method, cs: seq<Configuration>, first: Run, runs: seq<WholeRun>,
                                     outcomes: seq<Outcome>, next: Run, k: nat)
    requires AreRuns(m, cs, first, runs, outcomes, next) && k < |outcomes|
    ensures |runs| == |outcomes| && IsRunOf(m, cs, runs[k], outcomes[k])
    ensures runs[k].start == if k == 0 then first else NextStartOf(cs, runs[k - 1])
    decreases |runs|
  {
    hide IsRunOf;
    var n := |runs| - 1;
    RunsMatch(m, cs, first, runs, outcomes, next);
    if k < n {
      EachIsRun(m, cs, first, runs[..n], outcomes[..n], runs[n].start, k);
    } else if n > 0 {
      assert runs[..n] != [];
    }
  }

  /** The start after a run that left as many streams as there are configurations. */
  ghost function NextStartOf(cs: seq<Configuration>, w: WholeRun): Run {
    if |cs| == |w.end.streams| then NextStart(cs, w.end) else w.end
  }
}

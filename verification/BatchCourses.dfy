/** What the batch pops, stream by stream: the events of all streams are interleaved in one queue,
    but for every stream they come out as the stream's own requests, in their order. */
module BatchCourses {
  import opened DemandStreamModel
  import opened DriverCourses
  import opened DriverInvariant
  import opened DriverModel
  import opened DriverSteps
  import opened DriverTheorems
  import opened EventQueue
  import opened GenerateDemand
  import opened RequestRuns
  import opened StreamRuns
  import opened Sums

  // ---------------------------------------------------------------- The pending event

  /** The pending event of an account is its last request. */
  ghost predicate HoldsLast(q: Queue, a: Account) {
    a.slot.Some? ==>
      && a.requests != [] && a.slot.value in q
      && q[a.slot.value] == Booking(a.requests[|a.requests| - 1])
  }

  ghost predicate AllHoldLast(cs: seq<Configuration>, r: Run) {
    |r.accounts| == |cs| && forall i :: 0 <= i < |cs| ==> HoldsLast(r.queue, r.accounts[i])
  }

  lemma GenerateHoldsLast(m: Method, cs: seq<Configuration>, r: Run, i: nat, ch: Choice)
    requires CanGenerate(m, cs, r, i) && IsChoice(m, cs, r, i, ch)
    requires AllHoldLast(cs, r) && r.accounts[i].slot.None?
    ensures AllHoldLast(cs, Generate(m, cs, r, i, ch))
  {
    hide NextOf, IsReady, IsConfigured, IsSystem, Passes;
    var g := Generate(m, cs, r, i, ch);
    forall j | 0 <= j < |cs| ensures HoldsLast(g.queue, g.accounts[j]) {
      assert HoldsLast(r.queue, r.accounts[j]);
    }
  }

  /** No other stream has its pending event at the stamp. */
  lemma SlotsDiffer(m: Method, cs: seq<Configuration>, r: Run, stamp: int, j: nat)
    requires IsSound(m, cs, r) && stamp in r.queue && j < |cs|
    ensures IsBookingAt(cs, r.queue, stamp) && |r.accounts| == |cs|
    ensures j != StreamAt(cs, r.queue, stamp) && r.accounts[j].slot.Some? ==> r.accounts[j].slot.value != stamp
  {
    hide IsReady, IsConfigured, CountsAgree, IsChronological, IsBalanced, CurrentDateTime;
    PoppedEvent(m, cs, r, stamp);
    var i := StreamAt(cs, r.queue, stamp);
    if j != i && r.accounts[j].slot.Some? {
      assert HoldsRequestOf(m, cs, r, j, r.accounts[j].slot.value);
      assert KeyStrings(cs)[i] != KeyStrings(cs)[j];
    }
  }

  lemma PopHoldsLast(m: Method, cs: seq<Configuration>, r: Run, stamp: int)
    requires IsSound(m, cs, r) && stamp in r.queue && AllHoldLast(cs, r)
    ensures IsBookingAt(cs, r.queue, stamp) && AllHoldLast(cs, Pop(cs, r, stamp))
    ensures Pop(cs, r, stamp).accounts[StreamAt(cs, r.queue, stamp)].slot.None?
  {
    hide IsSound, StreamAt, IsBookingAt;
    SlotsDiffer(m, cs, r, stamp, StreamOfEvent(m, cs, r, stamp));
    var p := Pop(cs, r, stamp);
    forall j | 0 <= j < |cs| ensures HoldsLast(p.queue, p.accounts[j]) {
      SlotsDiffer(m, cs, r, stamp, j);
      assert HoldsLast(r.queue, r.accounts[j]);
    }
  }

  ghost function StreamOfEvent(m: Method, cs: seq<Configuration>, r: Run, stamp: int): (i: nat)
    requires IsSound(m, cs, r) && stamp in r.queue
    ensures i < |cs|
  {
    PoppedEvent(m, cs, r, stamp);
    StreamAt(cs, r.queue, stamp)
  }

  lemma SeedStepHoldsLast(m: Method, cs: seq<Configuration>, r: Run, ch: Choice, r': Run)
    requires Inv(m, cs, r) && AllHoldLast(cs, r) && SeedStep(m, cs, r, ch, r')
    ensures AllHoldLast(cs, r')
  {
    hide Inv, CanGenerate, Generate, IsChoice, IsSystem, IsReady, IsSound, Visit;
    VisitKeepsInv(m, cs, r);
    if CanGenerate(m, cs, Visit(r), r.next) {
      GenerateHoldsLast(m, cs, Visit(r), r.next, ch);
    }
  }

  lemma LoopStepHoldsLast(m: Method, cs: seq<Configuration>, r: Run, stamp: int, ch: Choice, r': Run)
    requires Inv(m, cs, r) && AllHoldLast(cs, r) && LoopStep(m, cs, r, stamp, ch, r')
    ensures AllHoldLast(cs, r')
  {
    PopHoldsLast(m, cs, r, stamp);
    hide Inv, CanGenerate, Generate, IsChoice, IsSystem, IsReady, StreamAt, IsBookingAt, Pop, AllHoldLast;
    var p, i := Pop(cs, r, stamp), StreamAt(cs, r.queue, stamp);
    if CanGenerate(m, cs, p, i) {
      GenerateHoldsLast(m, cs, p, i, ch);
    }
  }

  lemma {:induction false} TraceHoldsLast(m: Method, cs: seq<Configuration>, trace: seq<Run>, k: nat)
    requires IsTrace(m, cs, trace) && k < |trace|
    ensures AllHoldLast(cs, trace[k])
  {
    hide Inv, SeedStep, LoopStep, IsSystem, IsReady;
    if k > 0 {
      TraceHoldsLast(m, cs, trace, k - 1);
      TraceHasInv(m, cs, trace, k - 1);
      var r, r' := trace[k - 1], trace[k];
      assert Step(m, cs, r, trace[k - 1 + 1]);
      hide IsTrace, HoldsLast;
      if r.next == |cs| && r' == StatusUpdate(r) {
      } else if ch :| SeedStep(m, cs, r, ch, r') {
        SeedStepHoldsLast(m, cs, r, ch, r');
      } else {
        var stamp, ch :| LoopStep(m, cs, r, stamp, ch, r');
        LoopStepHoldsLast(m, cs, r, stamp, ch, r');
      }
    }
  }

  // ---------------------------------------------------------------- The popped requests of a stream

  /** The requests that carry a stream's string, in order. */
  function OfStream(requests: seq<BookingRequest>, key: string): seq<BookingRequest> {
    if requests == [] then []
    else
      var n := |requests| - 1;
      OfStream(requests[..n], key) + if requests[n].generatorKey == key then [requests[n]] else []
  }

  /** For every stream the popped requests are the first of those generated for it. */
  ghost predicate IsMerge(cs: seq<Configuration>, r: Run, popped: seq<BookingRequest>) {
    && |r.accounts| == |cs|
    && forall i :: 0 <= i < |cs| ==>
         && r.accounts[i].popped <= |r.accounts[i].requests|
         && OfStream(popped, KeyStrings(cs)[i]) == r.accounts[i].requests[..r.accounts[i].popped]
  }

  /** The popped event is the next request of its stream. */
  lemma PoppedIsNext(m: Method, cs: seq<Configuration>, r: Run, a: Account, stamp: int)
    requires IsSound(m, cs, r) && AllHoldLast(cs, r) && stamp in r.queue
    requires a == r.accounts[StreamOfEvent(m, cs, r, stamp)] && IsLogged(a)
    ensures |a.requests| == a.popped + 1 && r.queue[stamp] == Booking(a.requests[a.popped])
    ensures a.requests[a.popped].generatorKey == KeyStrings(cs)[StreamOfEvent(m, cs, r, stamp)]
  {
    hide IsConfigured, IsReady, IsSystem, CountsAgree, IsChronological, SlotsAreQueued, QueueIsSlotted, AllPass, Passes,
         CurrentDateTime, StillHavingRequestsToBeGenerated;
    PoppedEvent(m, cs, r, stamp);
    var i := StreamOfEvent(m, cs, r, stamp);
    assert i == StreamAt(cs, r.queue, stamp);
    hide StreamAt, IsBookingAt;
    assert IsBalanced(m, cs[i], r.streams[i], a);
    assert HoldsLast(r.queue, a);
  }

  lemma AppendOf(requests: seq<BookingRequest>, q: BookingRequest, key: string)
    ensures OfStream(requests + [q], key) == OfStream(requests, key) + if q.generatorKey == key then [q] else []
  {
    assert (requests + [q])[..|requests|] == requests;
  }

  /** Only the account of the stream in hand changes: one more popped, and perhaps one more request. */
  ghost predicate LoopMoves(r: Run, i: nat, r': Run) {
    && i < |r.accounts| == |r'.accounts|
    && (forall j :: 0 <= j < |r.accounts| && j != i ==> r'.accounts[j] == r.accounts[j])
    && r'.accounts[i].popped == r.accounts[i].popped + 1
    && r.accounts[i].requests <= r'.accounts[i].requests
  }

  lemma LoopStepMoves(m: Method, cs: seq<Configuration>, r: Run, stamp: int, ch: Choice, r': Run)
    requires LoopStep(m, cs, r, stamp, ch, r')
    ensures IsBookingAt(cs, r.queue, stamp) && LoopMoves(r, StreamAt(cs, r.queue, stamp), r')
  {
    hide NextOf, IsSystem, IsReady, IsChoice, Passes, StillHavingRequestsToBeGenerated;
  }

  lemma MergeGoesOn(cs: seq<Configuration>, r: Run, i: nat, r': Run, popped: seq<BookingRequest>, q: BookingRequest)
    requires IsMerge(cs, r, popped) && LoopMoves(r, i, r')
    requires |r.accounts[i].requests| == r.accounts[i].popped + 1 && q == r.accounts[i].requests[r.accounts[i].popped]
    requires forall j :: 0 <= j < |cs| ==> (KeyStrings(cs)[j] == q.generatorKey <==> j == i)
    ensures IsMerge(cs, r', popped + [q])
  {
    forall j | 0 <= j < |cs|
      ensures r'.accounts[j].popped <= |r'.accounts[j].requests|
      ensures OfStream(popped + [q], KeyStrings(cs)[j]) == r'.accounts[j].requests[..r'.accounts[j].popped]
    {
      AppendOf(popped, q, KeyStrings(cs)[j]);
      if j == i {
        var n := r.accounts[i].popped;
        assert r'.accounts[i].requests[..n + 1] == r.accounts[i].requests[..n] + [q];
      }
    }
  }

  lemma LoopStepMerges(m: Method, cs: seq<Configuration>, r: Run, stamp: int, ch: Choice, r': Run,
                       popped: seq<BookingRequest>, q: BookingRequest)
    requires Inv(m, cs, r) && AllHoldLast(cs, r) && LoopStep(m, cs, r, stamp, ch, r') && IsMerge(cs, r, popped)
    requires forall i :: 0 <= i < |cs| ==> IsLogged(r.accounts[i])
    requires stamp in r.queue && r.queue[stamp] == Booking(q)
    ensures IsMerge(cs, r', popped + [q])
  {
    var i := StreamOfEvent(m, cs, r, stamp);
    PoppedIsNext(m, cs, r, r.accounts[i], stamp);
    LoopStepMoves(m, cs, r, stamp, ch, r');
    forall j | 0 <= j < |cs| ensures KeyStrings(cs)[j] == q.generatorKey <==> j == i {
      KeysDiffer(m, cs, i, j);
    }
    hide IsMerge, LoopStep, Inv;
    MergeGoesOn(cs, r, i, r', popped, q);
  }

  lemma KeysDiffer(m: Method, cs: seq<Configuration>, i: nat, j: nat)
    requires IsSystem(m, cs) && i < |cs| && j < |cs|
    ensures KeyStrings(cs)[i] == KeyStrings(cs)[j] <==> i == j
  {
    hide IsConfigured;
    assert i < j ==> KeyStrings(cs)[i] != KeyStrings(cs)[j];
    assert j < i ==> KeyStrings(cs)[j] != KeyStrings(cs)[i];
  }

  // ---------------------------------------------------------------- Whole runs

  lemma NothingPopped(m: Method, cs: seq<Configuration>, r: Run)
    requires IsInMainLoop(m, cs, r) && r.stamps == []
    ensures IsMerge(cs, r, [])
  {
    CountsOf(m, cs, r);
    hide IsInMainLoop;
    SumNonNegative(PoppedCounts(r.accounts));
    forall i | 0 <= i < |cs| ensures r.accounts[i].popped == 0 {
      assert PoppedCounts(r.accounts)[i] == 0;
    }
  }

  lemma LoopStepInMainLoop(m: Method, cs: seq<Configuration>, r: Run, r': Run, stamp: int) returns (ch: Choice)
    requires IsInMainLoop(m, cs, r) && Step(m, cs, r, r') && IsEarliest(r.queue, stamp)
    ensures LoopStep(m, cs, r, stamp, ch, r')
  {
    hide Inv, IsWellFormed, CanGenerate, Generate, IsChoice, IsBookingAt, StreamAt, Pop;
    var t;
    t, ch :| LoopStep(m, cs, r, t, ch, r');
  }

  /** The requests popped up to any state of the main loop. */
  lemma {:induction false} TraceMerges(m: Method, cs: seq<Configuration>, trace: seq<Run>, stamps: seq<int>,
                                       popped: seq<BookingRequest>, j: nat)
    requires IsTrace(m, cs, trace) && ArePopped(cs, trace, stamps, popped) && j <= |popped|
    ensures IsMerge(cs, trace[|cs| + 1 + j], popped[..j])
    decreases j
  {
    hide IsStart, Step, IsInMainLoop, IsMerge, AllHoldLast, HasCourse, IsLogged;
    if j == 0 {
      TraceIsInMainLoop(m, cs, trace, |cs| + 1);
      NothingPopped(m, cs, trace[|cs| + 1]);
    } else {
      var k := |cs| + j;
      TraceMerges(m, cs, trace, stamps, popped, j - 1);
      TraceIsInMainLoop(m, cs, trace, k);
      TraceHoldsLast(m, cs, trace, k);
      TraceHasCourses(m, cs, trace, k);
      TurnMerges(m, cs, trace[0], trace[k], trace[k + 1], stamps[j - 1], popped[..j - 1], popped[j - 1]);
      assert popped[..j] == popped[..j - 1] + [popped[j - 1]];
    }
  }

  lemma TurnMerges(m: Method, cs: seq<Configuration>, start: Run, r: Run, r': Run, stamp: int,
                   popped: seq<BookingRequest>, q: BookingRequest)
    requires IsInMainLoop(m, cs, r) && AllHoldLast(cs, r) && HaveCourses(m, cs, start, r) && IsMerge(cs, r, popped)
    requires Step(m, cs, r, r') && IsEarliest(r.queue, stamp) && r.queue[stamp] == Booking(q)
    ensures IsMerge(cs, r', popped + [q])
  {
    hide Inv, Step, LoopStep, AllHoldLast, IsMerge, IsLogged, IsReady, IsCourse;
    var ch := LoopStepInMainLoop(m, cs, r, r', stamp);
    assert forall i :: 0 <= i < |cs| ==>
        HasCourse(m, cs[i], start.streams[i], DrawsOf(r.tape, r.base, r.order, i), r.streams[i], r.accounts[i]);
    LoopStepMerges(m, cs, r, stamp, ch, r', popped, q);
  }

  /** The course of a stream is over after these requests, of which the first n have passed: the last
      one did not pass, or the stream has no more. */
  ghost predicate IsOver(m: Method, end: State, requests: seq<BookingRequest>, n: nat) {
    && n <= |requests| && AllPass(requests[..n])
    && if n < |requests| then n == |requests| - 1 && !Passes(requests[n])
       else !StillHavingRequestsToBeGenerated(m, end)
  }

  /** The run pops, for the stream of the string, the requests that the stream's course gives with
      these draws of the shared generator, up to the first that does not pass. */
  ghost predicate PopsCourse(m: Method, c: Configuration, s0: State, shared: seq<real>, key: string,
                             popped: seq<BookingRequest>)
    requires IsReady(m, c, s0)
  {
    var (end, requests) := Calls(m, c, s0, shared);
    var mine := OfStream(popped, key);
    mine <= requests && IsOver(m, end, requests, |mine|)
  }

  lemma EndMerges(m: Method, cs: seq<Configuration>, w: WholeRun, o: Outcome)
    requires IsRunOf(m, cs, w, o)
    ensures IsMerge(cs, w.end, o.popped) && HaveCourses(m, cs, w.start, w.end)
  {
    hide *;
    RunTrace(m, cs, w, o);
    TraceMerges(m, cs, w.trace, w.end.stamps, o.popped, |o.popped|);
    TraceHasCourses(m, cs, w.trace, |w.trace| - 1);
    assert o.popped[..|o.popped|] == o.popped;
  }

  lemma EndAccount(m: Method, cs: seq<Configuration>, r: Run, i: nat)
    requires IsComplete(m, cs, r) && i < |cs|
    ensures |r.streams| == |r.accounts| == |cs|
    ensures r.accounts[i].queued == r.accounts[i].popped
    ensures r.accounts[i].rejected == 0 ==> !StillHavingRequestsToBeGenerated(m, r.streams[i])
  {
    hide CountsAgree, IsChronological, QueueIsSlotted, CurrentDateTime, IsConfigured, IsReady;
    assert IsBalanced(m, cs[i], r.streams[i], r.accounts[i]);
    assert IsSettled(m, r.streams[i], r.accounts[i]);
    assert r.accounts[i].slot.None?;
  }

  /** What a run reports for each of its streams: the popped requests that carry the stream's string
      are the stream's own requests, all of them and in their order, up to the first that does not
      precede departure, however the streams are interleaved and whatever stamps collide.  The draws
      of the shared generator behind them are those at the stream's places in the order of the run. */
  lemma RunPopsCourses(m: Method, cs: seq<Configuration>, w: WholeRun, o: Outcome, i: nat)
    requires IsRunOf(m, cs, w, o) && i < |cs|
    ensures |w.start.streams| == |cs| && IsReady(m, cs[i], w.start.streams[i])
    ensures PopsCourse(m, cs[i], w.start.streams[i], DrawsOf(w.start.tape, w.start.base, w.end.order, i),
                       KeyStrings(cs)[i], o.popped)
  {
    hide IsRunOf, IsComplete, IsReady, Calls, StillHavingRequestsToBeGenerated, IsTrace, ArePopped, OfStream, AllPass,
         DrawsOf;
    RunTrace(m, cs, w, o);
    EndMerges(m, cs, w, o);
    EndAccount(m, cs, w.end, i);
    var draws := DrawsOf(w.end.tape, w.end.base, w.end.order, i);
    assert HasCourse(m, cs[i], w.start.streams[i], draws, w.end.streams[i], w.end.accounts[i]);
  }

  /** Replay of whole runs: what run k + 1 pops for a stream is the course of the stream that would be
      created afresh, with the total that the reset drew, and read all its draws from where run k left
      its engines, whatever else run k left. */
  lemma NextRunReplays(m: Method, cs: seq<Configuration>, first: Run, runs: seq<WholeRun>, outcomes: seq<Outcome>,
                       next: Run, k: nat, i: nat)
    requires AreRuns(m, cs, first, runs, outcomes, next) && k + 1 < |outcomes| && i < |cs|
    ensures |runs| == |outcomes| && |runs[k].end.streams| == |cs|
    ensures var s := runs[k].end.streams[i];
            var total := DrawnTotals(cs, runs[k].end)[i];
            && IsReady(m, AllRewound(cs[i], s), Fresh(total))
            && PopsCourse(m, AllRewound(cs[i], s), Fresh(total),
                          DrawsOf(runs[k + 1].start.tape, runs[k + 1].start.base, runs[k + 1].end.order, i),
                          KeyStrings(cs)[i], outcomes[k + 1].popped)
  {
    hide *;
    EachIsRun(m, cs, first, runs, outcomes, next, k);
    EachIsRun(m, cs, first, runs, outcomes, next, k + 1);
    var w := runs[k + 1];
    StreamsAtEnd(m, cs, runs[k], outcomes[k], i);
    RunPopsCourses(m, cs, w, outcomes[k + 1], i);
    NextStartStream(cs, runs[k], i);
    ReplayedCourse(m, cs[i], runs[k].end.streams[i], DrawnTotals(cs, runs[k].end)[i],
                   DrawsOf(w.start.tape, w.start.base, w.end.order, i), KeyStrings(cs)[i], outcomes[k + 1].popped);
  }

  lemma StreamsAtEnd(m: Method, cs: seq<Configuration>, w: WholeRun, o: Outcome, i: nat)
    requires IsRunOf(m, cs, w, o) && i < |cs|
    ensures |w.end.streams| == |cs| && IsReady(m, cs[i], w.end.streams[i]) && |KeyStrings(cs)| == |cs|
  {
    EndIsWellFormed(m, cs, w, o);
    hide IsRunOf, IsReady, IsSystem;
  }

  lemma NextStartStream(cs: seq<Configuration>, w: WholeRun, i: nat)
    requires i < |cs| == |w.end.streams|
    ensures |NextStartOf(cs, w).streams| == |cs| == |DrawnTotals(cs, w.end)|
    ensures NextStartOf(cs, w).streams[i] == Reset(w.end.streams[i], DrawnTotals(cs, w.end)[i])
  {
    hide DrawnTotals, Reset;
  }

  lemma ReplayedCourse(m: Method, c: Configuration, s: State, total: int, shared: seq<real>, key: string,
                       popped: seq<BookingRequest>)
    requires IsReady(m, c, s) && IsReady(m, c, Reset(s, total))
    requires PopsCourse(m, c, Reset(s, total), shared, key, popped)
    ensures IsReady(m, AllRewound(c, s), Fresh(total))
    ensures PopsCourse(m, AllRewound(c, s), Fresh(total), shared, key, popped)
  {
    hide IsReady, Calls, Reset, Fresh, AllRewound, SameStream, OfStream, AllPass, StillHavingRequestsToBeGenerated;
    ResetIsFreshStream(m, c, s, total);
    CallsAgree(m, c, Reset(s, total), AllRewound(c, s), Fresh(total), shared);
    SameStreamsGoOnAlike(m, c, Calls(m, c, Reset(s, total), shared).0,
                         AllRewound(c, s), Calls(m, AllRewound(c, s), Fresh(total), shared).0);
  }
}

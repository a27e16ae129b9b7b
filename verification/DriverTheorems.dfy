/** What the invariant says about whole runs of the demand generator. */
module DriverTheorems {
  import opened Delivery
  import opened DemandStreamModel
  import opened DriverInvariant
  import opened DriverModel
  import opened DriverSteps
  import opened EventQueue
  import opened StreamRuns
  import opened Sums

  /** generateFirstRequests has returned. */
  ghost predicate IsInMainLoop(m: Method, cs: seq<Configuration>, r: Run) {
    Inv(m, cs, r) && r.next == |cs| + 1
  }

  /** The main loop has ended. */
  ghost predicate IsComplete(m: Method, cs: seq<Configuration>, r: Run) {
    IsInMainLoop(m, cs, r) && r.queue == map[]
  }

  // ---------------------------------------------------------------- Order of date-times

  /** The sanity check of the main loop never fails: a request generated after a pop is not earlier
      than the popped request, whatever stamps collided. */
  lemma SanityCheckNeverFails(m: Method, cs: seq<Configuration>, r: Run, stamp: int)
    requires IsInMainLoop(m, cs, r) && IsEarliest(r.queue, stamp)
    ensures IsBookingAt(cs, r.queue, stamp)
    ensures var p, i := Pop(cs, r, stamp), StreamAt(cs, r.queue, stamp);
            CanGenerate(m, cs, p, i) ==>
              r.queue[stamp].request.requestDateTime <= GeneratedRequest(m, cs, p, i).requestDateTime
  {
    PoppedEvent(m, cs, r, stamp);
    var p, i := Pop(cs, r, stamp), StreamAt(cs, r.queue, stamp);
    if CanGenerate(m, cs, p, i) {
      hide NextOf, IsConfigured, IsReady, CurrentDateTime, IsSound;
      NextOfOutcome(m, cs, p, i);
    }
  }

  /** On every run in which no stamp collided, events are popped in the order of their date-times,
      across all streams. */
  lemma EventsArePoppedInOrder(m: Method, cs: seq<Configuration>, trace: seq<Run>, k: nat)
    requires IsTrace(m, cs, trace) && k < |trace| && !trace[k].collided
    ensures NeverDecreases(trace[k].stamps)
    ensures forall t :: t in trace[k].queue && trace[k].stamps != [] ==> trace[k].stamps[|trace[k].stamps| - 1] <= t
  {
    TraceHasInv(m, cs, trace, k);
  }

  // ---------------------------------------------------------------- Order statistics

  /** The requests that each stream is to generate: its total, or none if the draw was negative. */
  function Targets(streams: seq<State>): seq<int> {
    seq(|streams|, i requires 0 <= i < |streams| => Max(0, streams[i].totalNumberOfRequestsToBeGenerated))
  }

  /** At every loop head a stream has zero or one event in the queue, its generated requests less
      the popped and the rejected ones; with none in the queue, and none rejected, it is complete. */
  lemma OrderStreamBalances(cs: seq<Configuration>, r: Run, i: nat)
    requires IsInMainLoop(StatisticsOrder, cs, r) && i < |cs|
    ensures var s, a := r.streams[i], r.accounts[i];
            && 0 <= Pending(a) <= 1
            && Pending(a) == s.numberOfRequestsGeneratedSoFar - a.popped - a.rejected
            && (a.slot.Some? ==> HoldsRequestOf(StatisticsOrder, cs, r, i, a.slot.value))
            && (Pending(a) == 0 && a.rejected == 0 ==>
                  s.numberOfRequestsGeneratedSoFar == Max(0, s.totalNumberOfRequestsToBeGenerated))
  {
    assert IsBalanced(StatisticsOrder, cs[i], r.streams[i], r.accounts[i]);
    assert IsSettled(StatisticsOrder, r.streams[i], r.accounts[i]);
  }

  /** When the loop ends a stream has delivered its target exactly if none of its requests was
      rejected; a rejected request ends the stream short of the target. */
  lemma OrderStreamDelivers(cs: seq<Configuration>, r: Run, i: nat)
    requires IsComplete(StatisticsOrder, cs, r) && i < |cs|
    ensures r.accounts[i].popped <= Targets(r.streams)[i]
    ensures r.accounts[i].popped == Targets(r.streams)[i] <==> r.accounts[i].rejected == 0
  {
    OrderStreamBalances(cs, r, i);
    assert IsBalanced(StatisticsOrder, cs[i], r.streams[i], r.accounts[i]);
  }

  lemma CountsOf(m: Method, cs: seq<Configuration>, r: Run)
    requires IsInMainLoop(m, cs, r)
    ensures |r.accounts| == |r.streams| == |cs|
    ensures |r.stamps| == Sum(PoppedCounts(r.accounts))
    ensures r.early + r.decrements == Sum(RejectedCounts(r.accounts))
    ensures r.actual == Sum(Totals(r.streams)) - r.decrements
  {
  }

  /** The law of conservation and its exact condition: the main loop makes as many pops as the
      streams are to generate if and only if no request of the run was rejected. */
  lemma OrderRunConservesDemand(cs: seq<Configuration>, r: Run)
    requires IsComplete(StatisticsOrder, cs, r)
    ensures |r.accounts| == |cs|
    ensures |r.stamps| <= Sum(Targets(r.streams))
    ensures |r.stamps| == Sum(Targets(r.streams))
            <==> forall i :: 0 <= i < |cs| ==> r.accounts[i].rejected == 0
  {
    CountsOf(StatisticsOrder, cs, r);
    hide IsComplete;
    var popped, targets := PoppedCounts(r.accounts), Targets(r.streams);
    forall i | 0 <= i < |cs|
      ensures popped[i] <= targets[i]
      ensures popped[i] == targets[i] <==> r.accounts[i].rejected == 0
    {
      OrderStreamDelivers(cs, r, i);
    }
    EqualSumsOfBounded(popped, targets);
  }

  /** With arrival patterns that land in time nothing is ever rejected: the
      loop makes exactly the sum of the targets in pops, no decrement touches the status, and, when
      no drawn total is negative, that sum is the count that generateFirstRequests returned. */
  lemma EarlyPatternsConserveDemand(cs: seq<Configuration>, r: Run)
    requires IsComplete(StatisticsOrder, cs, r)
    requires forall i :: 0 <= i < |cs| ==> LandsInTime(cs[i])
    ensures |r.stamps| == Sum(Targets(r.streams))
    ensures r.actual == Sum(Totals(r.streams))
    ensures (forall i :: 0 <= i < |cs| ==> 0 <= r.streams[i].totalNumberOfRequestsToBeGenerated) ==>
              |r.stamps| == Sum(Totals(r.streams))
  {
    OrderRunConservesDemand(cs, r);
    CountsOf(StatisticsOrder, cs, r);
    forall i | 0 <= i < |cs| ensures RejectedCounts(r.accounts)[i] == 0 {
      assert IsBalanced(StatisticsOrder, cs[i], r.streams[i], r.accounts[i]);
    }
    SumOfZeros(RejectedCounts(r.accounts));
    if forall i :: 0 <= i < |cs| ==> 0 <= r.streams[i].totalNumberOfRequestsToBeGenerated {
      assert Targets(r.streams) == Totals(r.streams);
    }
  }

  /** One rejected request is enough to break the law: when the first of several requests of the only
      stream does not precede departure, the queue is empty when the main loop starts, and the stream
      is never resumed, although it has more requests and the status still counts them all. */
  lemma RejectionStrandsStream(c: Configuration, r: Run, ch: Choice, seeded: Run)
    requires IsStart(StatisticsOrder, [c], r) && 1 < r.streams[0].totalNumberOfRequestsToBeGenerated
    requires CanGenerate(StatisticsOrder, [c], Visit(r), 0)
    requires !Passes(GeneratedRequest(StatisticsOrder, [c], Visit(r), 0))
    requires SeedStep(StatisticsOrder, [c], r, ch, seeded)
    ensures var done, total := StatusUpdate(seeded), r.streams[0].totalNumberOfRequestsToBeGenerated;
            && IsComplete(StatisticsOrder, [c], done)
            && |done.streams| == 1 && StillHavingRequestsToBeGenerated(StatisticsOrder, done.streams[0])
            && done.stamps == [] && done.actual == total && Sum(Targets(done.streams)) == total
  {
    StartHasInv(StatisticsOrder, [c], r);
    SeedStepKeepsInv(StatisticsOrder, [c], r, ch, seeded);
    StatusUpdateKeepsInv(StatisticsOrder, [c], seeded);
    hide Inv, NextOf, IsSystem, IsReady, Passes;
    var v, total := Visit(r), r.streams[0].totalNumberOfRequestsToBeGenerated;
    NextOfOutcome(StatisticsOrder, [c], v, 0);
    var (s, q) := NextOf(StatisticsOrder, [c], v, 0);
    assert seeded == Reject(Moved(v, 0, s), 0, q);
    assert Totals(seeded.streams) == [total] && Targets(seeded.streams) == [total];
    assert [total][..0] == [];
  }

  // ---------------------------------------------------------------- Poisson process

  /** A generated request is queued exactly if the counter of its stream moved; what is rejected is
      the sentinel. */
  lemma PoissonRequestIsQueuedIffCounted(cs: seq<Configuration>, r: Run, i: nat, ch: Choice)
    requires CanGenerate(Method.PoissonProcess, cs, r, i)
    ensures var g := Generate(Method.PoissonProcess, cs, r, i, ch);
            && (g.accounts[i].queued == r.accounts[i].queued + 1
                <==> g.streams[i].numberOfRequestsGeneratedSoFar == r.streams[i].numberOfRequestsGeneratedSoFar + 1)
            && (g.accounts[i].rejected == r.accounts[i].rejected + 1
                <==> !g.streams[i].stillHavingRequestsToBeGenerated)
  {
    hide NextOf, IsConfigured, IsReady, Passes;
    NextOfOutcome(Method.PoissonProcess, cs, r, i);
  }

  /** A started stream has no event in the queue exactly if it has emitted its sentinel; until then
      its counter is what was popped for it plus the one event in the queue. */
  lemma PoissonStreamBalances(cs: seq<Configuration>, r: Run, i: nat)
    requires Inv(Method.PoissonProcess, cs, r) && i < |cs| && i < r.next
    ensures var s, a := r.streams[i], r.accounts[i];
            && (a.slot.None? <==> a.rejected == 1)
            && (a.slot.None? <==> !s.stillHavingRequestsToBeGenerated)
            && s.numberOfRequestsGeneratedSoFar == a.popped + Pending(a)
            && (a.slot.Some? ==> HoldsRequestOf(Method.PoissonProcess, cs, r, i, a.slot.value))
  {
    assert IsBalanced(Method.PoissonProcess, cs[i], r.streams[i], r.accounts[i]);
    assert IsSettled(Method.PoissonProcess, r.streams[i], r.accounts[i]);
  }

  function GeneratedCounts(streams: seq<State>): seq<int> {
    seq(|streams|, i requires 0 <= i < |streams| => streams[i].numberOfRequestsGeneratedSoFar)
  }

  /** When the queue is empty every stream has emitted exactly one sentinel, the pops are the sum of
      the counters, and the status is the sum of the drawn totals less the sentinels emitted after
      generateFirstRequests; the sentinels emitted inside it were forgotten. */
  lemma PoissonRunConservesDemand(cs: seq<Configuration>, r: Run)
    requires IsComplete(Method.PoissonProcess, cs, r)
    ensures |r.accounts| == |cs| && forall i :: 0 <= i < |cs| ==> r.accounts[i].rejected == 1
    ensures |r.stamps| == Sum(GeneratedCounts(r.streams))
    ensures r.actual == Sum(Totals(r.streams)) - (|cs| - r.early)
  {
    CountsOf(Method.PoissonProcess, cs, r);
    forall i | 0 <= i < |cs|
      ensures r.accounts[i].rejected == 1
      ensures PoppedCounts(r.accounts)[i] == GeneratedCounts(r.streams)[i]
    {
      PoissonStreamBalances(cs, r, i);
    }
    assert PoppedCounts(r.accounts) == GeneratedCounts(r.streams);
    SumOfOnes(RejectedCounts(r.accounts));
  }

  // ---------------------------------------------------------------- Steps

  /** A step moves the run on by one: to the next stream, to the main loop, or by one pop.  It
      leaves the totals alone. */
  ghost predicate Advances(r: Run, r': Run) {
    && r'.next + |r'.stamps| == r.next + |r.stamps| + 1
    && Totals(r'.streams) == Totals(r.streams)
  }

  lemma SeedStepAdvances(m: Method, cs: seq<Configuration>, r: Run, ch: Choice, r': Run)
    requires Inv(m, cs, r) && SeedStep(m, cs, r, ch, r')
    ensures Advances(r, r')
  {
    VisitKeepsInv(m, cs, r);
    assert Visit(r).streams == r.streams;
    hide Inv, Generate, IsChoice, CanGenerate, IsWellFormed, Totals;
    if CanGenerate(m, cs, Visit(r), r.next) {
      GenerateKeepsTotals(m, cs, Visit(r), r.next, ch);
    }
  }

  lemma LoopStepAdvances(m: Method, cs: seq<Configuration>, r: Run, stamp: int, ch: Choice, r': Run)
    requires LoopStep(m, cs, r, stamp, ch, r')
    ensures Advances(r, r')
  {
    hide Generate, IsChoice, CanGenerate, IsSystem, IsReady, Totals, IsEarliest;
    var p, i := Pop(cs, r, stamp), StreamAt(cs, r.queue, stamp);
    if CanGenerate(m, cs, p, i) {
      GenerateKeepsTotals(m, cs, p, i, ch);
    }
  }

  lemma StepAdvances(m: Method, cs: seq<Configuration>, r: Run, r': Run)
    requires Inv(m, cs, r) && Step(m, cs, r, r')
    ensures Advances(r, r')
  {
    hide Inv, SeedStep, LoopStep;
    if r.next == |cs| && r' == StatusUpdate(r) {
    } else if ch :| SeedStep(m, cs, r, ch, r') {
      hide Advances;
      SeedStepAdvances(m, cs, r, ch, r');
    } else {
      hide Advances;
      var stamp, ch :| LoopStep(m, cs, r, stamp, ch, r');
      LoopStepAdvances(m, cs, r, stamp, ch, r');
    }
  }

  /** After k steps a run has seeded streams, updated the status and popped events k times in all. */
  lemma {:induction false} TraceAdvances(m: Method, cs: seq<Configuration>, trace: seq<Run>, k: nat)
    requires IsTrace(m, cs, trace) && k < |trace|
    ensures trace[k].next + |trace[k].stamps| == k
    ensures Totals(trace[k].streams) == Totals(trace[0].streams)
  {
    hide Step, Inv, IsWellFormed, Totals;
    if k > 0 {
      TraceAdvances(m, cs, trace, k - 1);
      TraceHasInv(m, cs, trace, k - 1);
      assert Step(m, cs, trace[k - 1], trace[k - 1 + 1]);
      StepAdvances(m, cs, trace[k - 1], trace[k]);
    }
  }

  /** In the main loop the pops count the steps. */
  lemma TraceIsInMainLoop(m: Method, cs: seq<Configuration>, trace: seq<Run>, k: nat)
    requires IsTrace(m, cs, trace) && |cs| < k < |trace|
    ensures IsInMainLoop(m, cs, trace[k]) && |trace[k].stamps| == k - |cs| - 1
  {
    TraceAdvances(m, cs, trace, k);
    TraceHasInv(m, cs, trace, k);
    assert CountsAgree(cs, trace[k]);
  }

  // ---------------------------------------------------------------- Progress

  /** The queue always has a stamp to give. */
  lemma {:induction false} SomeStampFor(q: Queue, time: int) returns (stamp: int)
    ensures IsStampFor(q, time, stamp)
    ensures time <= stamp
    decreases set t | t in q && time <= t
  {
    if time in q {
      ghost var taken := set t | t in q && time <= t;
      ghost var rest := set t | t in q && time + 1 <= t;
      assert time in taken && time !in rest;
      stamp := SomeStampFor(q, time + 1);
    } else {
      stamp := time;
    }
  }

  lemma SomeChoice(m: Method, cs: seq<Configuration>, r: Run, i: nat) returns (ch: Choice)
    requires CanGenerate(m, cs, r, i)
    ensures IsChoice(m, cs, r, i, ch)
  {
    var stamp := SomeStampFor(r.queue, GeneratedRequest(m, cs, r, i).requestDateTime);
    ch := Choice(stamp);
  }

  lemma SeedingGoesOn(m: Method, cs: seq<Configuration>, r: Run) returns (ch: Choice, r': Run)
    requires Inv(m, cs, r) && r.next < |cs|
    ensures SeedStep(m, cs, r, ch, r')
  {
    VisitKeepsInv(m, cs, r);
    SoundIsWellFormed(m, cs, Visit(r));
    SoundIsWellFormed(m, cs, r);
    hide Inv, IsSound, IsWellFormed, StillHavingRequestsToBeGenerated, Generate, IsChoice, Visit;
    if CanGenerate(m, cs, Visit(r), r.next) {
      ch := SomeChoice(m, cs, Visit(r), r.next);
      r' := Generate(m, cs, Visit(r), r.next, ch);
    } else {
      ch, r' := Choice(0), Visit(r);
    }
  }

  lemma LoopGoesOn(m: Method, cs: seq<Configuration>, r: Run, stamp: int) returns (ch: Choice, r': Run)
    requires IsInMainLoop(m, cs, r) && IsEarliest(r.queue, stamp)
    ensures LoopStep(m, cs, r, stamp, ch, r')
  {
    PopKeepsSound(m, cs, r, stamp);
    var p, i := Pop(cs, r, stamp), StreamAt(cs, r.queue, stamp);
    SoundIsWellFormed(m, cs, p);
    SoundIsWellFormed(m, cs, r);
    hide Inv, IsSound, IsWellFormed, StillHavingRequestsToBeGenerated, Generate, IsChoice, IsEarliest, IsBookingAt;
    if CanGenerate(m, cs, p, i) {
      ch := SomeChoice(m, cs, p, i);
      r' := Generate(m, cs, p, i, ch);
    } else {
      ch, r' := Choice(0), p;
    }
  }

  /** The run can only stop where the main loop does, with an empty queue. */
  lemma RunGoesOn(m: Method, cs: seq<Configuration>, r: Run) returns (r': Run)
    requires Inv(m, cs, r) && !IsComplete(m, cs, r)
    ensures Step(m, cs, r, r')
  {
    var ch;
    if r.next < |cs| {
      ch, r' := SeedingGoesOn(m, cs, r);
    } else if r.next == |cs| {
      hide Inv;
      r' := StatusUpdate(r);
    } else {
      var stamp := EarliestOf(r.queue);
      ch, r' := LoopGoesOn(m, cs, r, stamp);
    }
  }

  /** A trace goes on with any step of its last state. */
  lemma TraceExtends(m: Method, cs: seq<Configuration>, trace: seq<Run>, r: Run)
    requires IsTrace(m, cs, trace) && Step(m, cs, trace[|trace| - 1], r)
    ensures IsTrace(m, cs, trace + [r])
  {
    hide Step, IsStart;
    var longer := trace + [r];
    forall k | 0 <= k < |longer| - 1 ensures Step(m, cs, longer[k], longer[k + 1]) {
      if k < |trace| - 1 {
        assert Step(m, cs, trace[k], trace[k + 1]);
      }
    }
  }

  lemma {:induction false} EarliestOf(q: Queue) returns (stamp: int)
    requires q != map[]
    ensures IsEarliest(q, stamp)
    decreases |q|
  {
    EmptyOrInhabited(q.Keys);
    assert q.Keys != {};
    stamp :| stamp in q.Keys;
    var rest := q - {stamp};
    RemovalCounts(q, stamp);
    if rest != map[] {
      var other := EarliestOf(rest);
      assert forall t :: t in q ==> t == stamp || t in rest;
      if other < stamp { stamp := other; }
    }
  }
}

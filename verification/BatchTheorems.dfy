/** What the batch reports, for every run: the theorems about the state machine, stated on the
    outcomes of generateDemand. */
module BatchTheorems {
  import opened Delivery
  import opened DemandStreamModel
  import opened DriverCourses
  import opened DriverInvariant
  import opened DriverModel
  import opened DriverTheorems
  import opened EventQueue
  import opened GenerateDemand
  import opened RequestRuns
  import opened StreamRuns
  import opened Sums

  lemma RunFacts(m: Method, cs: seq<Configuration>, w: WholeRun, o: Outcome)
    requires IsRunOf(m, cs, w, o)
    ensures IsComplete(m, cs, w.end) && |o.popped| == |w.end.stamps|
    ensures o.count == Sum(Totals(w.end.streams)) && |w.end.streams| == |cs| == |w.end.accounts|
  {
    CountsOf(m, cs, w.end);
  }

  /** Order statistics: the popped requests are as many as the streams were to generate exactly if
      no request was rejected; with patterns that land in time they always are, and then,
      when no drawn total is negative, they are as many as generateFirstRequests announced. */
  lemma OrderRunDeliversCount(cs: seq<Configuration>, w: WholeRun, o: Outcome)
    requires IsRunOf(StatisticsOrder, cs, w, o)
    ensures |w.end.accounts| == |cs|
    ensures |o.popped| == Sum(Targets(w.end.streams))
            <==> forall i :: 0 <= i < |cs| ==> w.end.accounts[i].rejected == 0
    ensures (forall i :: 0 <= i < |cs| ==> IsConfigured(cs[i]) && LandsInTime(cs[i])) ==>
              |o.popped| == Sum(Targets(w.end.streams))
    ensures (forall i :: 0 <= i < |cs| ==> IsConfigured(cs[i]) && LandsInTime(cs[i]))
            && (forall t :: t in Totals(w.end.streams) ==> 0 <= t) ==>
              |o.popped| == o.count
  {
    RunFacts(StatisticsOrder, cs, w, o);
    OrderRunConservesDemand(cs, w.end);
    hide IsComplete, IsRunOf, IsConfigured, LandsInTime, Sum;
    if forall i :: 0 <= i < |cs| ==> IsConfigured(cs[i]) && LandsInTime(cs[i]) {
      EarlyPatternsConserveDemand(cs, w.end);
      if forall t :: t in Totals(w.end.streams) ==> 0 <= t {
        forall i | 0 <= i < |cs| ensures 0 <= w.end.streams[i].totalNumberOfRequestsToBeGenerated {
          assert Totals(w.end.streams)[i] in Totals(w.end.streams);
        }
      }
    }
  }

  lemma NonNegativeTotals(streams: seq<State>)
    requires forall t :: t in Totals(streams) ==> 0 <= t
    ensures Targets(streams) == Totals(streams)
  {
    forall i | 0 <= i < |streams| ensures Targets(streams)[i] == Totals(streams)[i] {
      assert Totals(streams)[i] in Totals(streams);
    }
  }

  lemma CompleteTrace(m: Method, cs: seq<Configuration>, trace: seq<Run>)
    requires IsTrace(m, cs, trace) && IsComplete(m, cs, trace[|trace| - 1])
    ensures IsCompleteTrace(m, cs, trace)
  {
  }

  /** The exact condition, on the state that the run starts from: the batch pops what the streams
      were to generate, and, when no drawn total is negative, what generateFirstRequests announced, if
      and only if the start makes all due requests precede departure.  It does when all patterns
      land in time. */
  lemma OrderRunDeliversIffStartDoes(cs: seq<Configuration>, w: WholeRun, o: Outcome)
    requires IsRunOf(StatisticsOrder, cs, w, o)
    ensures |o.popped| == Sum(Targets(w.start.streams)) <==> AllDeliver(cs, w.start)
    ensures (forall t :: t in Totals(w.start.streams) ==> 0 <= t) ==>
              (|o.popped| == o.count <==> AllDeliver(cs, w.start))
    ensures (forall i :: 0 <= i < |cs| ==> IsConfigured(cs[i]) && LandsInTime(cs[i])) ==>
              AllDeliver(cs, w.start)
  {
    hide *;
    RunTrace(StatisticsOrder, cs, w, o);
    CompleteTrace(StatisticsOrder, cs, w.trace);
    OrderRunDeliversIffPasses(cs, w.trace);
    if forall t :: t in Totals(w.start.streams) ==> 0 <= t {
      NonNegativeTotals(w.start.streams);
    }
    if forall i :: 0 <= i < |cs| ==> IsConfigured(cs[i]) && LandsInTime(cs[i]) {
      LandingStartDelivers(cs, w.trace);
    }
  }

  lemma LandingStartDelivers(cs: seq<Configuration>, trace: seq<Run>)
    requires IsTrace(StatisticsOrder, cs, trace)
    requires forall i :: 0 <= i < |cs| ==> IsConfigured(cs[i]) && LandsInTime(cs[i])
    ensures AllDeliver(cs, trace[0])
  {
    hide IsConfigured, Supports, IsConsistent, LandsInTime, NextPass, Step, IsSystem;
    forall i | 0 <= i < |cs|
      ensures IsReady(StatisticsOrder, cs[i], trace[0].streams[i])
      ensures NextPass(StatisticsOrder, cs[i], trace[0].streams[i], Target(trace[0].streams[i]))
    {
      LandingPasses(cs[i], trace[0].streams[i], Target(trace[0].streams[i]));
    }
  }

  /** Poisson process: the popped requests are the requests that the streams counted, and every
      stream has sent its one sentinel. */
  lemma PoissonRunDeliversCounters(cs: seq<Configuration>, w: WholeRun, o: Outcome)
    requires IsRunOf(Method.PoissonProcess, cs, w, o)
    ensures |o.popped| == Sum(GeneratedCounts(w.end.streams))
    ensures |w.end.accounts| == |cs| && forall i :: 0 <= i < |cs| ==> w.end.accounts[i].rejected == 1
    ensures w.end.actual == o.count - (|cs| - w.end.early)
  {
    RunFacts(Method.PoissonProcess, cs, w, o);
    PoissonRunConservesDemand(cs, w.end);
  }

  // ---------------------------------------------------------------- Order of the popped requests

  lemma CollisionsStay(m: Method, cs: seq<Configuration>, r: Run, r': Run)
    requires Step(m, cs, r, r') && r.collided
    ensures r'.collided
  {
    hide NextOf, IsWellFormed, IsChoice, CanGenerate, Passes;
    if r.next == |cs| && r' == StatusUpdate(r) {
    } else if ch :| SeedStep(m, cs, r, ch, r') {
    } else {
      var stamp, ch :| LoopStep(m, cs, r, stamp, ch, r');
    }
  }

  lemma {:induction false} NoCollisionBefore(m: Method, cs: seq<Configuration>, trace: seq<Run>, k: nat, n: nat)
    requires IsTrace(m, cs, trace) && k <= n < |trace| && !trace[n].collided
    ensures !trace[k].collided
    decreases n - k
  {
    hide Step, IsStart;
    if k < n {
      NoCollisionBefore(m, cs, trace, k + 1, n);
      assert Step(m, cs, trace[k], trace[k + 1]);
      if trace[k].collided { CollisionsStay(m, cs, trace[k], trace[k + 1]); }
    }
  }

  lemma PoppedIsEarliest(cs: seq<Configuration>, trace: seq<Run>, stamps: seq<int>, popped: seq<BookingRequest>, j: nat)
    requires ArePopped(cs, trace, stamps, popped) && j < |popped|
    ensures |cs| + 1 + j < |trace| && j < |stamps|
    ensures var q := trace[|cs| + 1 + j].queue;
            IsEarliest(q, stamps[j]) && stamps[j] in q && q[stamps[j]] == Booking(popped[j])
  {
  }

  lemma QueuedAtItsDateTime(m: Method, cs: seq<Configuration>, r: Run, stamp: int, q: BookingRequest)
    requires IsInMainLoop(m, cs, r) && !r.collided && stamp in r.queue && r.queue[stamp] == Booking(q)
    ensures q.requestDateTime == stamp
  {
    hide IsWellFormed, AllBalanced, SlotsAreQueued, QueueIsSlotted, CountsAgree;
    assert IsChronological(cs, r);
  }

  /** An event popped before any stamp collided lies at its own date-time. */
  lemma PoppedAtItsDateTime(m: Method, cs: seq<Configuration>, w: WholeRun, o: Outcome, j: nat)
    requires IsRunOf(m, cs, w, o) && j < |o.popped| && !w.end.collided
    ensures |w.end.stamps| == |o.popped| && o.popped[j].requestDateTime == w.end.stamps[j]
  {
    hide *;
    RunTrace(m, cs, w, o);
    PoppedIsEarliest(cs, w.trace, w.end.stamps, o.popped, j);
    var k := |cs| + 1 + j;
    TraceIsInMainLoop(m, cs, w.trace, k);
    NoCollisionBefore(m, cs, w.trace, k, |w.trace| - 1);
    QueuedAtItsDateTime(m, cs, w.trace[k], w.end.stamps[j], o.popped[j]);
  }

  /** When no stamp of a run collided, the batch pops requests in the order of their date-times,
      across all streams. */
  lemma PoppedRequestsAreInOrder(m: Method, cs: seq<Configuration>, w: WholeRun, o: Outcome)
    requires IsRunOf(m, cs, w, o) && !w.end.collided
    ensures forall i, j :: 0 <= i < j < |o.popped| ==> o.popped[i].requestDateTime <= o.popped[j].requestDateTime
  {
    EventsArePoppedInOrder(m, cs, w.trace, |w.trace| - 1);
    hide IsRunOf;
    forall i, j | 0 <= i < j < |o.popped| ensures o.popped[i].requestDateTime <= o.popped[j].requestDateTime {
      PoppedAtItsDateTime(m, cs, w, o, i);
      PoppedAtItsDateTime(m, cs, w, o, j);
    }
  }
}

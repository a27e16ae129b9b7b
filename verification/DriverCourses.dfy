/** Whole runs of the generator, stream by stream: what a run generates for a stream is what the
    stream's own course says, and that decides whether its demand is delivered. */
module DriverCourses {
  import opened DemandStreamModel
  import opened DriverInvariant
  import opened DriverModel
  import opened DriverSteps
  import opened DriverTheorems
  import opened RandomGeneration
  import opened RequestRuns
  import opened StreamRuns
  import opened Sums

  /** The draws of the shared generator that stream i has taken: those at its places in the order. */
  function DrawsOf(tape: Engine, base: nat, order: seq<nat>, i: nat): seq<real> {
    if order == [] then []
    else
      var n := |order| - 1;
      DrawsOf(tape, base, order[..n], i) + if order[n] == i then [tape.uniform(base + n)] else []
  }

  lemma DrawsGoOn(tape: Engine, base: nat, order: seq<nat>, i: nat, k: nat)
    ensures DrawsOf(tape, base, order + [k], i)
            == if k == i then DrawsOf(tape, base, order, i) + [tape.uniform(base + |order|)]
               else DrawsOf(tape, base, order, i)
  {
    assert (order + [k])[..|order|] == order;
  }

  /** With its draws of the shared generator, stream i went from s0 to where it is and gave the
      requests of its account. */
  ghost predicate IsCourse(m: Method, c: Configuration, s0: State, draws: seq<real>, s: State, a: Account)
    requires IsReady(m, c, s0)
  {
    |draws| == |a.requests| && Calls(m, c, s0, draws) == (s, a.requests)
  }

  /** The requests passed and were queued, except that the last one may have been rejected. */
  ghost predicate IsLogged(a: Account) {
    && a.rejected <= 1 && a.queued + a.rejected == |a.requests|
    && AllPass(a.requests[..a.queued])
    && (a.rejected == 1 ==> !Passes(a.requests[a.queued]))
  }

  lemma RejectedNoneIffAllPass(a: Account)
    requires IsLogged(a)
    ensures a.rejected == 0 <==> AllPass(a.requests)
  {
    if a.rejected == 0 { assert a.requests[..a.queued] == a.requests; }
  }

  ghost predicate HasCourse(m: Method, c: Configuration, s0: State, draws: seq<real>, s: State, a: Account) {
    IsReady(m, c, s0) && IsLogged(a) && IsCourse(m, c, s0, draws, s, a)
  }

  ghost predicate HaveCourses(m: Method, cs: seq<Configuration>, start: Run, r: Run) {
    && |start.streams| == |r.streams| == |r.accounts| == |cs|
    && r.tape == start.tape && r.base == start.base
    && forall i :: 0 <= i < |cs| ==>
         HasCourse(m, cs[i], start.streams[i], DrawsOf(r.tape, r.base, r.order, i), r.streams[i], r.accounts[i])
  }

  lemma StartHasCourses(m: Method, cs: seq<Configuration>, start: Run)
    requires IsStart(m, cs, start)
    ensures HaveCourses(m, cs, start, start)
  {
    hide IsReady, IsSystem;
  }

  /** One more request: queued if it passes, rejected if it does not. */
  lemma CourseGoesOn(m: Method, c: Configuration, s0: State, draws: seq<real>, s: State, a: Account, shared: real,
                     a': Account)
    requires HasCourse(m, c, s0, draws, s, a) && a.rejected == 0
    requires IsReady(m, c, s) && StillHavingRequestsToBeGenerated(m, s)
    requires var q := NextRequest(m, c, s, shared).1;
             && a'.requests == a.requests + [q]
             && a'.queued == a.queued + (if Passes(q) then 1 else 0)
             && a'.rejected == a.rejected + (if Passes(q) then 0 else 1)
    ensures HasCourse(m, c, s0, draws + [shared], NextRequest(m, c, s, shared).0, a')
  {
    hide NextRequest, IsConfigured, Supports, IsConsistent, Passes, StillHavingRequestsToBeGenerated;
    CallsGoOn(m, c, s0, draws, shared);
    var (next, q) := NextRequest(m, c, s, shared);
    assert a.requests[..a.queued] == a.requests == a'.requests[..a.queued];
    assert a'.requests[..a'.queued] == if Passes(q) then a.requests + [q] else a.requests;
  }

  lemma GenerateKeepsCourses(m: Method, cs: seq<Configuration>, start: Run, r: Run, i: nat, ch: Choice)
    requires HaveCourses(m, cs, start, r) && CanGenerate(m, cs, r, i) && r.accounts[i].rejected == 0
    ensures HaveCourses(m, cs, start, Generate(m, cs, r, i, ch))
  {
    hide HasCourse, NextRequest, IsConfigured, Supports, IsConsistent, IsSystem, Passes, DrawsOf,
         StillHavingRequestsToBeGenerated;
    var g := Generate(m, cs, r, i, ch);
    CourseGoesOn(m, cs[i], start.streams[i], DrawsOf(r.tape, r.base, r.order, i), r.streams[i], r.accounts[i],
                 SharedDraw(r), g.accounts[i]);
    GenerateFrame(m, cs, r, i, ch);
    assert g.order == r.order + [i] && g.tape == r.tape && g.base == r.base;
    forall j | 0 <= j < |cs|
      ensures HasCourse(m, cs[j], start.streams[j], DrawsOf(g.tape, g.base, g.order, j), g.streams[j], g.accounts[j])
    {
      DrawsGoOn(r.tape, r.base, r.order, j, i);
    }
  }

  lemma PopKeepsCourses(m: Method, cs: seq<Configuration>, start: Run, r: Run, stamp: int)
    requires HaveCourses(m, cs, start, r) && IsBookingAt(cs, r.queue, stamp)
    ensures HaveCourses(m, cs, start, Pop(cs, r, stamp))
  {
    hide IsReady, StreamAt, IsBookingAt, DrawsOf, Calls;
  }

  lemma SameCourses(m: Method, cs: seq<Configuration>, start: Run, r: Run, r': Run)
    requires HaveCourses(m, cs, start, r) && r'.streams == r.streams && r'.accounts == r.accounts
    requires r'.tape == r.tape && r'.base == r.base && r'.order == r.order
    ensures HaveCourses(m, cs, start, r')
  {
    hide HasCourse;
  }

  lemma SeedStepKeepsCourses(m: Method, cs: seq<Configuration>, start: Run, r: Run, ch: Choice, r': Run)
    requires Inv(m, cs, r) && HaveCourses(m, cs, start, r) && SeedStep(m, cs, r, ch, r')
    ensures HaveCourses(m, cs, start, r')
  {
    hide Inv, HaveCourses, CanGenerate, Generate, IsChoice, IsSystem, IsReady, IsSound, Visit;
    VisitKeepsInv(m, cs, r);
    SameCourses(m, cs, start, r, Visit(r));
    if CanGenerate(m, cs, Visit(r), r.next) {
      GenerateKeepsCourses(m, cs, start, Visit(r), r.next, ch);
    }
  }

  lemma LoopStepKeepsCourses(m: Method, cs: seq<Configuration>, start: Run, r: Run, stamp: int, ch: Choice, r': Run)
    requires Inv(m, cs, r) && HaveCourses(m, cs, start, r) && LoopStep(m, cs, r, stamp, ch, r')
    ensures HaveCourses(m, cs, start, r')
  {
    PopKeepsSound(m, cs, r, stamp);
    hide Inv, HaveCourses, CanGenerate, Generate, IsChoice, IsSystem, IsReady, StreamAt, IsBookingAt, Pop, IsSound;
    PopKeepsCourses(m, cs, start, r, stamp);
    var p, i := Pop(cs, r, stamp), StreamAt(cs, r.queue, stamp);
    if CanGenerate(m, cs, p, i) {
      GenerateKeepsCourses(m, cs, start, p, i, ch);
    }
  }

  lemma StepKeepsCourses(m: Method, cs: seq<Configuration>, start: Run, r: Run, r': Run)
    requires Inv(m, cs, r) && HaveCourses(m, cs, start, r) && Step(m, cs, r, r')
    ensures HaveCourses(m, cs, start, r')
  {
    hide Inv, SeedStep, LoopStep, HasCourse;
    if r.next == |cs| && r' == StatusUpdate(r) {
    } else if ch :| SeedStep(m, cs, r, ch, r') {
      SeedStepKeepsCourses(m, cs, start, r, ch, r');
    } else {
      var stamp, ch :| LoopStep(m, cs, r, stamp, ch, r');
      LoopStepKeepsCourses(m, cs, start, r, stamp, ch, r');
    }
  }

  /** In every state of every run each stream has taken successive calls from its start on. */
  lemma {:induction false} TraceHasCourses(m: Method, cs: seq<Configuration>, trace: seq<Run>, k: nat)
    requires IsTrace(m, cs, trace) && k < |trace|
    ensures HaveCourses(m, cs, trace[0], trace[k])
  {
    hide IsStart, Step, HaveCourses;
    if k == 0 {
      StartHasCourses(m, cs, trace[0]);
    } else {
      TraceHasCourses(m, cs, trace, k - 1);
      TraceHasInv(m, cs, trace, k - 1);
      assert Step(m, cs, trace[k - 1], trace[k - 1 + 1]);
      StepKeepsCourses(m, cs, trace[0], trace[k - 1], trace[k]);
    }
  }

  // ---------------------------------------------------------------- Date-times

  /** The requests that any run generates for a stream, however the streams are interleaved and
      whatever stamps collide, are the first of the stream's own date-times, in their order. */
  lemma TraceRequestsCarryStamps(m: Method, cs: seq<Configuration>, trace: seq<Run>, k: nat, i: nat, n: nat)
    requires IsTrace(m, cs, trace) && k < |trace| && i < |cs|
    ensures |trace[k].accounts| == |trace[0].streams| == |cs| && IsReady(m, cs[i], trace[0].streams[i])
    ensures var times := DateTimes(trace[k].accounts[i].requests);
            && times == Stamps(m, cs[i], trace[0].streams[i], |times|)
            && (|times| <= n ==> times <= Stamps(m, cs[i], trace[0].streams[i], n))
            && NeverDecreases(times)
  {
    TraceHasCourses(m, cs, trace, k);
    hide Step, IsStart, IsReady, Calls, Stamps;
    var c, s0, a := cs[i], trace[0].streams[i], trace[k].accounts[i];
    var draws := DrawsOf(trace[k].tape, trace[k].base, trace[k].order, i);
    assert HasCourse(m, c, s0, draws, trace[k].streams[i], a);
    RequestsCarryStamps(m, c, s0, draws);
    RequestsNeverDecrease(m, c, s0, draws);
    if |a.requests| <= n {
      StampsArePrefix(m, c, s0, |a.requests|, n);
    }
  }

  // ---------------------------------------------------------------- Delivery

  /** Nothing was rejected for a stream exactly if the requests generated for it are requests that
      its start makes pass. */
  lemma RejectedNoneIffPass(m: Method, c: Configuration, s0: State, draws: seq<real>, s: State, a: Account)
    requires HasCourse(m, c, s0, draws, s, a)
    ensures a.rejected == 0 <==> NextPass(m, c, s0, |a.requests|)
  {
    hide IsReady, Calls, NextPass, AllPass;
    RejectedNoneIffAllPass(a);
    CallsPass(m, c, s0, draws);
  }

  /** The requests that a stream is to generate from its start. */
  function Target(s: State): nat {
    Max(0, s.totalNumberOfRequestsToBeGenerated)
  }

  /** What the books of a stream say when its run is complete. */
  lemma CompleteStream(cs: seq<Configuration>, r: Run, i: nat)
    requires IsComplete(StatisticsOrder, cs, r) && i < |cs|
    ensures |r.streams| == |r.accounts| == |cs|
    ensures var a := r.accounts[i];
            && (a.rejected == 0 ==> a.popped == a.queued == Target(r.streams[i]))
            && a.queued + a.rejected <= Target(r.streams[i])
  {
    OrderStreamBalances(cs, r, i);
    assert IsBalanced(StatisticsOrder, cs[i], r.streams[i], r.accounts[i]);
  }

  /** A run that has come to its end. */
  ghost predicate IsCompleteTrace(m: Method, cs: seq<Configuration>, trace: seq<Run>) {
    IsTrace(m, cs, trace) && IsComplete(m, cs, trace[|trace| - 1])
  }

  /** The exact condition, which the start of the run decides: when the loop ends a stream has
      delivered its target if and only if the requests that its start makes due all precede
      departure. */
  lemma OrderStreamDeliversIffPasses(cs: seq<Configuration>, trace: seq<Run>, i: nat)
    requires IsCompleteTrace(StatisticsOrder, cs, trace) && i < |cs|
    ensures var start, end := trace[0], trace[|trace| - 1];
            && |start.streams| == |end.accounts| == |end.streams| == |cs|
            && IsReady(StatisticsOrder, cs[i], start.streams[i])
            && Target(end.streams[i]) == Target(start.streams[i])
            && (end.accounts[i].rejected == 0
                <==> NextPass(StatisticsOrder, cs[i], start.streams[i], Target(start.streams[i])))
            && (end.accounts[i].popped == Target(start.streams[i])
                <==> NextPass(StatisticsOrder, cs[i], start.streams[i], Target(start.streams[i])))
  {
    hide *;
    CompleteCourse(cs, trace, i);
    var start, end := trace[0], trace[|trace| - 1];
    DeliversIffPasses(cs[i], start.streams[i], DrawsOf(end.tape, end.base, end.order, i), end.streams[i],
                      end.accounts[i]);
  }

  /** The course of a stream over a complete run, and its books at the end. */
  ghost predicate EndsCourse(c: Configuration, s0: State, draws: seq<real>, s: State, a: Account) {
    && HasCourse(StatisticsOrder, c, s0, draws, s, a)
    && Target(s) == Target(s0)
    && (a.rejected == 0 <==> a.popped == Target(s))
    && (a.rejected == 0 ==> a.queued == Target(s))
    && a.queued + a.rejected <= Target(s)
  }

  lemma CompleteCourse(cs: seq<Configuration>, trace: seq<Run>, i: nat)
    requires IsCompleteTrace(StatisticsOrder, cs, trace) && i < |cs|
    ensures |trace| > 0
    ensures var start, end := trace[0], trace[|trace| - 1];
            && |start.streams| == |end.accounts| == |end.streams| == |cs|
            && EndsCourse(cs[i], start.streams[i], DrawsOf(end.tape, end.base, end.order, i), end.streams[i],
                          end.accounts[i])
  {
    hide IsStart, Step, IsComplete, HasCourse;
    var n := |trace| - 1;
    TraceHasCourses(StatisticsOrder, cs, trace, n);
    TraceAdvances(StatisticsOrder, cs, trace, n);
    OrderStreamDelivers(cs, trace[n], i);
    CompleteStream(cs, trace[n], i);
    assert Totals(trace[0].streams)[i] == Totals(trace[n].streams)[i];
  }

  lemma DeliversIffPasses(c: Configuration, s0: State, draws: seq<real>, s: State, a: Account)
    requires EndsCourse(c, s0, draws, s, a)
    ensures IsReady(StatisticsOrder, c, s0) && Target(s) == Target(s0)
    ensures a.rejected == 0 <==> NextPass(StatisticsOrder, c, s0, Target(s0))
    ensures a.popped == Target(s0) <==> NextPass(StatisticsOrder, c, s0, Target(s0))
  {
    hide IsReady, NextPass, IsCourse, Target;
    RejectedNoneIffPass(StatisticsOrder, c, s0, draws, s, a);
    if NextPass(StatisticsOrder, c, s0, Target(s0)) {
      NextPassFewer(StatisticsOrder, c, s0, |a.requests|, Target(s0));
    }
  }

  /** Every stream of the start makes its due requests pass. */
  ghost predicate AllDeliver(cs: seq<Configuration>, start: Run) {
    && |start.streams| == |cs|
    && forall i :: 0 <= i < |cs| ==>
         && IsReady(StatisticsOrder, cs[i], start.streams[i])
         && NextPass(StatisticsOrder, cs[i], start.streams[i], Target(start.streams[i]))
  }

  /** The law of conservation and its exact condition: a complete run pops as many requests as its
      streams were to generate if and only if the start makes all due requests of all streams
      precede departure. */
  lemma OrderRunDeliversIffPasses(cs: seq<Configuration>, trace: seq<Run>)
    requires IsCompleteTrace(StatisticsOrder, cs, trace)
    ensures |trace[|trace| - 1].stamps| == Sum(Targets(trace[0].streams)) <==> AllDeliver(cs, trace[0])
  {
    hide IsStart, Step, IsComplete, IsReady, NextPass, Sum, Targets;
    var start, end := trace[0], trace[|trace| - 1];
    StreamsOfComplete(cs, trace);
    OrderRunConservesDemand(cs, end);
    forall i | 0 <= i < |cs|
      ensures IsReady(StatisticsOrder, cs[i], start.streams[i])
      ensures end.accounts[i].rejected == 0
              <==> NextPass(StatisticsOrder, cs[i], start.streams[i], Target(start.streams[i]))
    {
      OrderStreamDeliversIffPasses(cs, trace, i);
    }
  }

  lemma StreamsOfComplete(cs: seq<Configuration>, trace: seq<Run>)
    requires IsCompleteTrace(StatisticsOrder, cs, trace)
    ensures |trace[0].streams| == |trace[|trace| - 1].streams| == |cs|
    ensures Targets(trace[|trace| - 1].streams) == Targets(trace[0].streams)
  {
    hide IsReady, IsSystem;
    CountsOf(StatisticsOrder, cs, trace[|trace| - 1]);
    TraceAdvances(StatisticsOrder, cs, trace, |trace| - 1);
    TargetsOfTotals(trace[0].streams, trace[|trace| - 1].streams);
  }

  lemma TargetsOfTotals(s: seq<State>, s': seq<State>)
    requires Totals(s) == Totals(s')
    ensures Targets(s) == Targets(s')
  {
    assert |s| == |Totals(s)| == |s'|;
    forall i | 0 <= i < |s| ensures Targets(s)[i] == Targets(s')[i] {
      assert Totals(s)[i] == Totals(s')[i];
    }
  }

  // ---------------------------------------------------------------- Termination

  /** The streams of the start give at most so many requests each. */
  ghost predicate EndWithin(m: Method, cs: seq<Configuration>, start: Run, bounds: seq<int>) {
    && |bounds| == |cs| == |start.streams|
    && forall i :: 0 <= i < |cs| ==>
         IsReady(m, cs[i], start.streams[i]) && 0 <= bounds[i] && EndsWithin(m, cs[i], start.streams[i], bounds[i])
  }

  lemma RequestsAreBounded(m: Method, c: Configuration, s0: State, draws: seq<real>, s: State, a: Account, n: nat)
    requires HasCourse(m, c, s0, draws, s, a) && EndsWithin(m, c, s0, n)
    ensures a.queued <= |a.requests| <= n
  {
    hide IsReady, Calls, Stamps, EndsWithin;
    RequestsCarryStamps(m, c, s0, draws);
    EndedStamps(m, c, s0, n, |draws|);
  }

  lemma PoppedWereQueued(m: Method, cs: seq<Configuration>, r: Run)
    requires Inv(m, cs, r)
    ensures |r.accounts| == |cs| && |r.stamps| == Sum(PoppedCounts(r.accounts))
    ensures forall i :: 0 <= i < |cs| ==> r.accounts[i].popped <= r.accounts[i].queued
  {
    hide IsReady, IsConfigured, SlotsAreQueued, QueueIsSlotted, IsChronological;
    assert forall i :: 0 <= i < |cs| ==> IsBalanced(m, cs[i], r.streams[i], r.accounts[i]);
  }

  /** No run pops more than its streams give. */
  lemma PopsAreBounded(m: Method, cs: seq<Configuration>, trace: seq<Run>, bounds: seq<int>, k: nat)
    requires IsTrace(m, cs, trace) && k < |trace| && EndWithin(m, cs, trace[0], bounds)
    ensures |trace[k].stamps| <= Sum(bounds)
  {
    TraceHasCourses(m, cs, trace, k);
    TraceHasInv(m, cs, trace, k);
    hide IsTrace, Inv, HasCourse, EndsWithin, IsReady, DrawsOf;
    PoppedWereQueued(m, cs, trace[k]);
    var r := trace[k];
    forall i | 0 <= i < |cs| ensures PoppedCounts(r.accounts)[i] <= bounds[i] {
      RequestsAreBounded(m, cs[i], trace[0].streams[i], DrawsOf(r.tape, r.base, r.order, i), r.streams[i],
                         r.accounts[i], bounds[i]);
    }
    EqualSumsOfBounded(PoppedCounts(r.accounts), bounds);
  }

  /** Every run of the whole generator is finite: it takes one step for each stream, one for the
      status, and at most as many pops as its streams give requests. */
  lemma RunsAreFinite(m: Method, cs: seq<Configuration>, trace: seq<Run>, bounds: seq<int>)
    requires IsTrace(m, cs, trace) && EndWithin(m, cs, trace[0], bounds)
    ensures |trace| - 1 <= |cs| + 1 + Sum(bounds)
  {
    var k := |trace| - 1;
    TraceAdvances(m, cs, trace, k);
    TraceHasInv(m, cs, trace, k);
    PopsAreBounded(m, cs, trace, bounds, k);
  }

  /** Whatever a run has done so far, it can be carried on until the queue is empty. */
  lemma {:induction false} RunCompletes(m: Method, cs: seq<Configuration>, trace: seq<Run>, bounds: seq<int>)
    returns (whole: seq<Run>)
    requires IsTrace(m, cs, trace) && EndWithin(m, cs, trace[0], bounds)
    ensures IsCompleteTrace(m, cs, whole) && trace <= whole
    decreases |cs| + 2 + Sum(bounds) - |trace|
  {
    hide Step, IsStart, Inv, EndWithin;
    TraceHasInv(m, cs, trace, |trace| - 1);
    whole := trace;
    if !IsComplete(m, cs, trace[|trace| - 1]) {
      var next := RunGoesOn(m, cs, trace[|trace| - 1]);
      TraceExtends(m, cs, trace, next);
      RunsAreFinite(m, cs, trace + [next], bounds);
      whole := RunCompletes(m, cs, trace + [next], bounds);
    }
  }

  /** A stream that has no more requests after its calls ends with them. */
  lemma CourseEnds(m: Method, c: Configuration, s0: State, draws: seq<real>, s: State, a: Account)
    requires HasCourse(m, c, s0, draws, s, a) && !StillHavingRequestsToBeGenerated(m, s)
    ensures EndsWithin(m, c, s0, |a.requests|)
  {
    hide IsReady, Calls, Stamps, StillHavingRequestsToBeGenerated, NextRequest;
    CallsGoOn(m, c, s0, draws, 0.0);
    RequestsCarryStamps(m, c, s0, draws + [0.0]);
  }

  lemma PoissonIsOver(cs: seq<Configuration>, r: Run, i: nat)
    requires IsComplete(Method.PoissonProcess, cs, r) && i < |cs|
    ensures |r.streams| == |cs| && !r.streams[i].stillHavingRequestsToBeGenerated
  {
    PoissonRunConservesDemand(cs, r);
    hide IsReady, IsConfigured, SlotsAreQueued, QueueIsSlotted, IsChronological, CountsAgree;
    assert IsBalanced(Method.PoissonProcess, cs[i], r.streams[i], r.accounts[i]);
  }

  /** The bound that a complete run shows for one of its streams. */
  lemma ShownBound(m: Method, cs: seq<Configuration>, trace: seq<Run>, i: nat) returns (n: nat)
    requires IsCompleteTrace(m, cs, trace) && i < |cs|
    ensures |trace[0].streams| == |cs| && IsReady(m, cs[i], trace[0].streams[i])
    ensures EndsWithin(m, cs[i], trace[0].streams[i], n)
  {
    var start, end := trace[0], trace[|trace| - 1];
    TraceHasCourses(m, cs, trace, |trace| - 1);
    hide IsTrace, IsComplete, EndsWithin, IsReady, IsCourse, DrawsOf;
    assert HasCourse(m, cs[i], start.streams[i], DrawsOf(end.tape, end.base, end.order, i), end.streams[i],
                     end.accounts[i]);
    if m.PoissonProcess? {
      PoissonIsOver(cs, end, i);
      CourseEnds(m, cs[i], start.streams[i], DrawsOf(end.tape, end.base, end.order, i), end.streams[i],
                 end.accounts[i]);
      n := |end.accounts[i].requests|;
    } else {
      n := Max(0, Remaining(start.streams[i]));
      OrderStreamEnds(cs[i], start.streams[i], n);
    }
  }

  lemma {:induction false} ShownBounds(m: Method, cs: seq<Configuration>, trace: seq<Run>, k: nat)
    returns (bounds: seq<int>)
    requires IsCompleteTrace(m, cs, trace) && k <= |cs|
    ensures |bounds| == k && |trace[0].streams| == |cs|
    ensures forall i :: 0 <= i < k ==>
              && IsReady(m, cs[i], trace[0].streams[i]) && 0 <= bounds[i]
              && EndsWithin(m, cs[i], trace[0].streams[i], bounds[i])
  {
    hide IsCompleteTrace, IsReady, EndsWithin;
    if k == 0 {
      CompleteSizes(m, cs, trace);
      bounds := [];
    } else {
      bounds := ShownBounds(m, cs, trace, k - 1);
      var n := ShownBound(m, cs, trace, k - 1);
      bounds := bounds + [n];
    }
  }

  lemma CompleteSizes(m: Method, cs: seq<Configuration>, trace: seq<Run>)
    requires IsCompleteTrace(m, cs, trace)
    ensures |trace[0].streams| == |cs|
  {
    hide IsReady, IsSystem, Step, IsComplete;
  }

  /** The exact condition for the loop of the batch to end, on the state that it starts from: the run
      comes to its end if and only if each of its streams does. */
  lemma RunEndsIffStreamsEnd(m: Method, cs: seq<Configuration>, start: Run)
    requires IsStart(m, cs, start)
    ensures (exists trace :: IsCompleteTrace(m, cs, trace) && trace[0] == start)
            <==> exists bounds :: EndWithin(m, cs, start, bounds)
  {
    hide IsStart, IsComplete, EndsWithin, IsReady, Step;
    if bounds :| EndWithin(m, cs, start, bounds) {
      assert IsTrace(m, cs, [start]);
      var whole := RunCompletes(m, cs, [start], bounds);
      assert whole[0] == start;
    }
    if trace :| IsCompleteTrace(m, cs, trace) && trace[0] == start {
      var bounds := ShownBounds(m, cs, trace, |cs|);
      assert EndWithin(m, cs, start, bounds);
    }
  }

  // ---------------------------------------------------------------- All starts

  /** Whatever the engines have given so far, the streams of a Poisson system end. */
  ghost predicate DrawsEnd(m: Method, cs: seq<Configuration>) {
    m.PoissonProcess? ==> forall i :: 0 <= i < |cs| ==> AlwaysEnds(cs[i])
  }

  lemma FreshStreamEnds(m: Method, c: Configuration, s: State) returns (n: nat)
    requires IsReady(m, c, s) && s.firstDateTimeRequest && s.stillHavingRequestsToBeGenerated
    requires m.PoissonProcess? ==> AlwaysEnds(c)
    ensures EndsWithin(m, c, s, n)
  {
    hide IsConfigured, IsPoissonPattern, Stamps;
    if m.StatisticsOrder? {
      n := Max(0, Remaining(s));
      OrderStreamEnds(c, s, n);
    } else {
      assert EndsFrom(c, s.dateTimePosition);
      n :| EndsWithin(Method.PoissonProcess, c, FreshAt(s.dateTimePosition), n);
      CoursesAgree(m, c, s, c, FreshAt(s.dateTimePosition), n + 1);
    }
  }

  lemma {:induction false} StartBounds(m: Method, cs: seq<Configuration>, start: Run, k: nat)
    returns (bounds: seq<int>)
    requires IsStart(m, cs, start) && DrawsEnd(m, cs) && k <= |cs|
    ensures |bounds| == k && |start.streams| == |cs|
    ensures forall i :: 0 <= i < k ==>
              && IsReady(m, cs[i], start.streams[i]) && 0 <= bounds[i]
              && EndsWithin(m, cs[i], start.streams[i], bounds[i])
  {
    hide IsReady, IsSystem, EndsWithin, AlwaysEnds;
    if k == 0 {
      bounds := [];
    } else {
      bounds := StartBounds(m, cs, start, k - 1);
      var n := FreshStreamEnds(m, cs[k - 1], start.streams[k - 1]);
      bounds := bounds + [n];
    }
  }

  lemma StartEnds(m: Method, cs: seq<Configuration>, start: Run) returns (bounds: seq<int>)
    requires IsStart(m, cs, start) && DrawsEnd(m, cs)
    ensures EndWithin(m, cs, start, bounds)
  {
    hide IsStart, DrawsEnd, IsReady, EndsWithin;
    bounds := StartBounds(m, cs, start, |cs|);
  }
}

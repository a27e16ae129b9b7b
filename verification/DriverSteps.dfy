/** Every step of a run keeps the invariant. */
module DriverSteps {
  import opened Delivery
  import opened DemandStreamModel
  import opened DriverInvariant
  import opened DriverModel
  import opened EventQueue
  import opened Options
  import opened StreamRuns
  import opened Sums

  // ---------------------------------------------------------------- Sums over the accounts

  lemma PendingCountsUpdate(accounts: seq<Account>, i: nat, a: Account)
    requires i < |accounts|
    ensures Sum(PendingCounts(accounts[i := a])) == Sum(PendingCounts(accounts)) - Pending(accounts[i]) + Pending(a)
  {
    assert PendingCounts(accounts[i := a]) == PendingCounts(accounts)[i := Pending(a)];
    SumOfUpdate(PendingCounts(accounts), i, Pending(a));
  }

  lemma PoppedCountsUpdate(accounts: seq<Account>, i: nat, a: Account)
    requires i < |accounts|
    ensures Sum(PoppedCounts(accounts[i := a])) == Sum(PoppedCounts(accounts)) - accounts[i].popped + a.popped
  {
    assert PoppedCounts(accounts[i := a]) == PoppedCounts(accounts)[i := a.popped];
    SumOfUpdate(PoppedCounts(accounts), i, a.popped);
  }

  lemma RejectedCountsUpdate(accounts: seq<Account>, i: nat, a: Account)
    requires i < |accounts|
    ensures Sum(RejectedCounts(accounts[i := a])) == Sum(RejectedCounts(accounts)) - accounts[i].rejected + a.rejected
  {
    assert RejectedCounts(accounts[i := a]) == RejectedCounts(accounts)[i := a.rejected];
    SumOfUpdate(RejectedCounts(accounts), i, a.rejected);
  }

  lemma AccountUpdate(accounts: seq<Account>, i: nat, a: Account)
    requires i < |accounts|
    ensures Sum(PendingCounts(accounts[i := a])) == Sum(PendingCounts(accounts)) - Pending(accounts[i]) + Pending(a)
    ensures Sum(PoppedCounts(accounts[i := a])) == Sum(PoppedCounts(accounts)) - accounts[i].popped + a.popped
    ensures Sum(RejectedCounts(accounts[i := a])) == Sum(RejectedCounts(accounts)) - accounts[i].rejected + a.rejected
  {
    PendingCountsUpdate(accounts, i, a);
    PoppedCountsUpdate(accounts, i, a);
    RejectedCountsUpdate(accounts, i, a);
  }

  // ---------------------------------------------------------------- Pop

  /** The event that is popped is the pending request of its stream. */
  lemma PoppedEvent(m: Method, cs: seq<Configuration>, r: Run, stamp: int)
    requires IsSound(m, cs, r) && stamp in r.queue
    ensures IsBookingAt(cs, r.queue, stamp)
    ensures var i := StreamAt(cs, r.queue, stamp);
            && r.accounts[i].slot == Some(stamp) && r.accounts[i].rejected == 0
            && HoldsRequestOf(m, cs, r, i, stamp)
  {
    hide IsConfigured, IsReady, HoldsRequestOf, CountsAgree, IsChronological;
  }

  lemma PopKeepsSlots(m: Method, cs: seq<Configuration>, r: Run, stamp: int)
    requires IsWellFormed(m, cs, r) && SlotsAreQueued(m, cs, r) && QueueIsSlotted(m, cs, r) && stamp in r.queue
    ensures IsWellFormed(m, cs, Pop(cs, r, stamp))
    ensures SlotsAreQueued(m, cs, Pop(cs, r, stamp)) && QueueIsSlotted(m, cs, Pop(cs, r, stamp))
  {
    hide IsConfigured, IsReady, CurrentDateTime;
    var p, i := Pop(cs, r, stamp), StreamAt(cs, r.queue, stamp);
    forall j | 0 <= j < |cs| && p.accounts[j].slot.Some?
      ensures HoldsRequestOf(m, cs, p, j, p.accounts[j].slot.value)
    {
      assert j != i && p.accounts[j] == r.accounts[j];
      assert HoldsRequestOf(m, cs, r, j, r.accounts[j].slot.value);
      assert KeyStrings(cs)[i] != KeyStrings(cs)[j];
    }
    forall t | t in p.queue
      ensures IsBookingAt(cs, p.queue, t) && p.accounts[StreamAt(cs, p.queue, t)].slot == Some(t)
    {
      assert t in r.queue && t != stamp;
      assert StreamAt(cs, p.queue, t) == StreamAt(cs, r.queue, t);
    }
  }

  lemma PopKeepsCounts(m: Method, cs: seq<Configuration>, r: Run, stamp: int)
    requires |r.accounts| == |cs| && CountsAgree(cs, r) && r.next > |cs|
    requires IsBookingAt(cs, r.queue, stamp) && r.accounts[StreamAt(cs, r.queue, stamp)].slot.Some?
    ensures CountsAgree(cs, Pop(cs, r, stamp))
  {
    var i := StreamAt(cs, r.queue, stamp);
    AccountUpdate(r.accounts, i, Pop(cs, r, stamp).accounts[i]);
    RemovalCounts(r.queue, stamp);
  }

  lemma PopKeepsChronology(m: Method, cs: seq<Configuration>, r: Run, stamp: int)
    requires |r.accounts| == |cs| && IsChronological(cs, r)
    requires IsEarliest(r.queue, stamp) && IsBookingAt(cs, r.queue, stamp)
    ensures IsChronological(cs, Pop(cs, r, stamp))
  {
    if !r.collided {
      assert r.stamps != [] ==> r.stamps[|r.stamps| - 1] <= stamp;
    }
  }

  /** Pop changes the account of one stream, and no stream. */
  lemma PopKeepsBalance(m: Method, cs: seq<Configuration>, r: Run, stamp: int)
    requires IsSound(m, cs, r) && stamp in r.queue
    ensures IsBookingAt(cs, r.queue, stamp)
    ensures AllBalanced(m, cs, Pop(cs, r, stamp))
    ensures var a := Pop(cs, r, stamp).accounts[StreamAt(cs, r.queue, stamp)];
            a.slot.None? && a.rejected == 0
  {
    PoppedEvent(m, cs, r, stamp);
    hide IsConfigured, IsReady, IsSystem, LandsInTime, SlotsAreQueued, QueueIsSlotted, CountsAgree,
         IsChronological, HoldsRequestOf, StreamAt;
    assert IsBalanced(m, cs[StreamAt(cs, r.queue, stamp)], r.streams[StreamAt(cs, r.queue, stamp)],
                      r.accounts[StreamAt(cs, r.queue, stamp)]);
  }

  /** Popping the earliest event keeps everything but the settledness of its stream. */
  lemma PopKeepsSound(m: Method, cs: seq<Configuration>, r: Run, stamp: int)
    requires IsSound(m, cs, r) && r.next > |cs| && IsEarliest(r.queue, stamp)
    ensures IsBookingAt(cs, r.queue, stamp) && IsSound(m, cs, Pop(cs, r, stamp))
    ensures Pop(cs, r, stamp).accounts[StreamAt(cs, r.queue, stamp)].slot.None?
    ensures Pop(cs, r, stamp).accounts[StreamAt(cs, r.queue, stamp)].rejected == 0
  {
    hide IsReady, IsConfigured, IsSystem, SlotsAreQueued, QueueIsSlotted, CountsAgree, IsChronological, AllBalanced,
         IsBalanced, StreamAt, HoldsRequestOf;
    PoppedEvent(m, cs, r, stamp);
    PopKeepsBalance(m, cs, r, stamp);
    PopKeepsSlots(m, cs, r, stamp);
    PopKeepsCounts(m, cs, r, stamp);
    PopKeepsChronology(m, cs, r, stamp);
  }

  // ---------------------------------------------------------------- Generate

  /** The stream in hand: no event in the queue, no request rejected so far. */
  ghost predicate IsInHand(m: Method, cs: seq<Configuration>, r: Run, i: nat) {
    && CanGenerate(m, cs, r, i)
    && r.accounts[i].slot.None? && r.accounts[i].rejected == 0
  }

  /** Nothing popped so far is later than the stream in hand, unless some stamp collided. */
  ghost predicate IsNotOvertaken(m: Method, cs: seq<Configuration>, r: Run, i: nat)
    requires IsWellFormed(m, cs, r) && i < |cs|
  {
    !r.collided && r.stamps != [] ==> r.stamps[|r.stamps| - 1] <= CurrentDateTime(m, cs[i], r.streams[i])
  }

  /** NextRequestOutcome, for stream i of a run. */
  lemma NextOfOutcome(m: Method, cs: seq<Configuration>, r: Run, i: nat)
    requires CanGenerate(m, cs, r, i)
    ensures var (s', q) := NextOf(m, cs, r, i);
            var s := r.streams[i];
            && IsReady(m, cs[i], s')
            && s'.totalNumberOfRequestsToBeGenerated == s.totalNumberOfRequestsToBeGenerated
            && q.generatorKey == KeyStrings(cs)[i]
            && CurrentDateTime(m, cs[i], s) <= q.requestDateTime
            && (Passes(q) ==> q.requestDateTime == CurrentDateTime(m, cs[i], s'))
            && (m.StatisticsOrder? ==>
                  && s'.numberOfRequestsGeneratedSoFar == s.numberOfRequestsGeneratedSoFar + 1
                  && (LandsInTime(cs[i]) ==> Passes(q)))
            && (m.PoissonProcess? ==>
                  && (s'.stillHavingRequestsToBeGenerated <==> Passes(q))
                  && s'.numberOfRequestsGeneratedSoFar
                     == s.numberOfRequestsGeneratedSoFar + if Passes(q) then 1 else 0)
  {
    hide NextRequest, IsReady, IsConfigured, Passes, LandsInTime;
    NextRequestOutcome(m, cs[i], r.streams[i], SharedDraw(r));
  }

  lemma GenerateBalances(m: Method, cs: seq<Configuration>, r: Run, i: nat, ch: Choice)
    requires IsSound(m, cs, r) && IsInHand(m, cs, r, i)
    ensures var g := Generate(m, cs, r, i, ch);
            && IsWellFormed(m, cs, g)
            && AllBalanced(m, cs, g)
            && IsSettled(m, g.streams[i], g.accounts[i])
  {
    hide NextOf, IsReady, IsConfigured, Passes, LandsInTime, IsSystem, SlotsAreQueued, QueueIsSlotted, CountsAgree,
         IsChronological;
    NextOfOutcome(m, cs, r, i);
    var g := Generate(m, cs, r, i, ch);
    assert IsBalanced(m, cs[i], r.streams[i], r.accounts[i]);
    assert forall j :: 0 <= j < |cs| && j != i ==> g.streams[j] == r.streams[j] && g.accounts[j] == r.accounts[j];
  }

  lemma EnqueueKeepsSlots(m: Method, cs: seq<Configuration>, r: Run, s: State, i: nat, q: BookingRequest, stamp: int)
    requires IsWellFormed(m, cs, r) && SlotsAreQueued(m, cs, r) && QueueIsSlotted(m, cs, r)
    requires i < |cs| && r.accounts[i].slot.None? && stamp !in r.queue
    requires IsReady(m, cs[i], s)
    requires q.generatorKey == KeyStrings(cs)[i] && q.requestDateTime == CurrentDateTime(m, cs[i], s)
    ensures var g := Enqueue(Moved(r, i, s), i, q, stamp);
            IsWellFormed(m, cs, g) && SlotsAreQueued(m, cs, g) && QueueIsSlotted(m, cs, g)
  {
    hide IsConfigured, IsReady, CurrentDateTime;
    var g := Enqueue(Moved(r, i, s), i, q, stamp);
    forall j | 0 <= j < |cs| && g.accounts[j].slot.Some?
      ensures HoldsRequestOf(m, cs, g, j, g.accounts[j].slot.value)
    {
      if j != i {
        assert HoldsRequestOf(m, cs, r, j, r.accounts[j].slot.value);
      }
    }
    forall t | t in g.queue
      ensures IsBookingAt(cs, g.queue, t) && g.accounts[StreamAt(cs, g.queue, t)].slot == Some(t)
    {
      if t == stamp {
        assert KeyStrings(cs)[i] in KeyStrings(cs);
        var k := Find(KeyStrings(cs), q.generatorKey);
        assert k == i;
      } else {
        assert t in r.queue && StreamAt(cs, g.queue, t) == StreamAt(cs, r.queue, t);
      }
    }
  }

  lemma RejectKeepsSlots(m: Method, cs: seq<Configuration>, r: Run, s: State, i: nat, q: BookingRequest)
    requires IsWellFormed(m, cs, r) && SlotsAreQueued(m, cs, r) && QueueIsSlotted(m, cs, r)
    requires i < |cs| && r.accounts[i].slot.None?
    requires IsReady(m, cs[i], s)
    ensures var g := Reject(Moved(r, i, s), i, q);
            IsWellFormed(m, cs, g) && SlotsAreQueued(m, cs, g) && QueueIsSlotted(m, cs, g)
  {
    hide IsConfigured, IsReady, CurrentDateTime;
    var g := Reject(Moved(r, i, s), i, q);
    forall j | 0 <= j < |cs| && g.accounts[j].slot.Some?
      ensures HoldsRequestOf(m, cs, g, j, g.accounts[j].slot.value)
    {
      assert HoldsRequestOf(m, cs, r, j, r.accounts[j].slot.value);
    }
    forall t | t in g.queue
      ensures IsBookingAt(cs, g.queue, t) && g.accounts[StreamAt(cs, g.queue, t)].slot == Some(t)
    {
      assert StreamAt(cs, g.queue, t) == StreamAt(cs, r.queue, t);
    }
  }

  lemma GenerateKeepsSlots(m: Method, cs: seq<Configuration>, r: Run, i: nat, ch: Choice)
    requires IsSound(m, cs, r) && IsInHand(m, cs, r, i) && IsChoice(m, cs, r, i, ch)
    ensures var g := Generate(m, cs, r, i, ch);
            IsWellFormed(m, cs, g) && SlotsAreQueued(m, cs, g) && QueueIsSlotted(m, cs, g)
  {
    hide NextOf, IsReady, IsConfigured, Passes, LandsInTime, IsSystem, SlotsAreQueued, QueueIsSlotted,
         CurrentDateTime, IsBalanced, CountsAgree, IsChronological;
    NextOfOutcome(m, cs, r, i);
    var (s, q) := NextOf(m, cs, r, i);
    if Passes(q) {
      EnqueueKeepsSlots(m, cs, r, s, i, q, ch.stamp);
    } else {
      RejectKeepsSlots(m, cs, r, s, i, q);
    }
  }

  /** Generating moves one stream, and leaves its total alone. */
  lemma GenerateKeepsTotals(m: Method, cs: seq<Configuration>, r: Run, i: nat, ch: Choice)
    requires CanGenerate(m, cs, r, i)
    ensures var g := Generate(m, cs, r, i, ch);
            Totals(g.streams) == Totals(r.streams) && g.next == r.next && g.stamps == r.stamps
  {
    hide NextOf, IsReady, IsConfigured, IsSystem, Passes;
    NextOfOutcome(m, cs, r, i);
    var g := Generate(m, cs, r, i, ch);
    assert g.streams == r.streams[i := NextOf(m, cs, r, i).0];
  }

  lemma GenerateKeepsCounts(m: Method, cs: seq<Configuration>, r: Run, i: nat, ch: Choice)
    requires IsWellFormed(m, cs, r) && CountsAgree(cs, r)
    requires IsInHand(m, cs, r, i) && IsChoice(m, cs, r, i, ch)
    ensures CountsAgree(cs, Generate(m, cs, r, i, ch))
  {
    hide NextOf, IsReady, IsConfigured, Passes, IsSystem, Totals, Sum, PendingCounts, PoppedCounts, RejectedCounts,
         StillHavingRequestsToBeGenerated;
    GenerateKeepsTotals(m, cs, r, i, ch);
    var g := Generate(m, cs, r, i, ch);
    var q := GeneratedRequest(m, cs, r, i);
    if Passes(q) {
      AccountUpdate(r.accounts, i, g.accounts[i]);
      InsertionLosesNothing(r.queue, q.requestDateTime, ch.stamp, Booking(q));
    } else {
      AccountUpdate(r.accounts, i, g.accounts[i]);
    }
  }

  lemma GenerateKeepsChronology(m: Method, cs: seq<Configuration>, r: Run, i: nat, ch: Choice)
    requires IsWellFormed(m, cs, r) && IsChronological(cs, r)
    requires IsInHand(m, cs, r, i) && IsChoice(m, cs, r, i, ch) && IsNotOvertaken(m, cs, r, i)
    ensures IsChronological(cs, Generate(m, cs, r, i, ch))
  {
    hide NextOf, IsReady, IsConfigured, Passes, IsSystem, CurrentDateTime;
    NextOfOutcome(m, cs, r, i);
  }

  /** Generate changes one stream and its account. */
  lemma GenerateFrame(m: Method, cs: seq<Configuration>, r: Run, i: nat, ch: Choice)
    requires CanGenerate(m, cs, r, i)
    ensures var g := Generate(m, cs, r, i, ch);
            && |g.streams| == |g.accounts| == |cs| && g.next == r.next
            && (forall j :: 0 <= j < |cs| && j != i ==> g.streams[j] == r.streams[j] && g.accounts[j] == r.accounts[j])
  {
    hide NextOf, IsReady, IsConfigured, Passes, IsSystem;
  }

  /** Generating for the stream in hand keeps everything, and settles the stream. */
  lemma GenerateKeepsSound(m: Method, cs: seq<Configuration>, r: Run, i: nat, ch: Choice)
    requires IsSound(m, cs, r) && IsInHand(m, cs, r, i) && IsChoice(m, cs, r, i, ch) && IsNotOvertaken(m, cs, r, i)
    ensures var g := Generate(m, cs, r, i, ch);
            && IsSound(m, cs, g)
            && |g.streams| == |g.accounts| == |cs|
            && IsSettled(m, g.streams[i], g.accounts[i])
            && g.next == r.next
            && (forall j :: 0 <= j < |cs| && j != i ==> g.streams[j] == r.streams[j] && g.accounts[j] == r.accounts[j])
  {
    hide Generate, IsReady, IsConfigured, IsSystem, IsChoice, IsNotOvertaken, SlotsAreQueued, QueueIsSlotted,
         CountsAgree, IsChronological, AllBalanced, IsSettled, StillHavingRequestsToBeGenerated;
    GenerateBalances(m, cs, r, i, ch);
    GenerateKeepsSlots(m, cs, r, i, ch);
    GenerateKeepsCounts(m, cs, r, i, ch);
    GenerateKeepsChronology(m, cs, r, i, ch);
    GenerateFrame(m, cs, r, i, ch);
  }

  // ---------------------------------------------------------------- The steps

  /** Setting the first-request flag of a stream that has not been started changes nothing. */
  lemma VisitKeepsInv(m: Method, cs: seq<Configuration>, r: Run)
    requires Inv(m, cs, r) && r.next < |cs|
    ensures r.streams[r.next].(firstDateTimeRequest := true) == r.streams[r.next]
    ensures Visit(r) == r.(next := r.next + 1)
    ensures IsSound(m, cs, Visit(r))
    ensures Visit(r).accounts[r.next] == Account(0, 0, 0, None, [])
  {
    hide IsConfigured, IsReady, IsBalanced, CurrentDateTime, IsSettled;
    assert IsUntouched(r.streams[r.next], r.accounts[r.next]);
    var v := Visit(r);
    assert v.streams == r.streams;
    assert v == r.(next := r.next + 1);
    assert IsWellFormed(m, cs, v);
    forall i | 0 <= i < |cs| && v.accounts[i].slot.Some?
      ensures HoldsRequestOf(m, cs, v, i, v.accounts[i].slot.value)
    {
      assert HoldsRequestOf(m, cs, r, i, r.accounts[i].slot.value);
    }
  }

  /** Only stream i has changed, and it is settled; if it was the next to start, it is started. */
  lemma SettlingKeepsInv(m: Method, cs: seq<Configuration>, r: Run, r': Run, i: nat)
    requires Inv(m, cs, r) && IsSound(m, cs, r')
    requires i < |cs| == |r'.streams| == |r'.accounts|
    requires r'.next == (if i == r.next then r.next + 1 else r.next) && i < r'.next
    requires IsSettled(m, r'.streams[i], r'.accounts[i])
    requires forall j :: 0 <= j < |cs| && j != i ==> r'.streams[j] == r.streams[j] && r'.accounts[j] == r.accounts[j]
    ensures Inv(m, cs, r')
  {
    hide IsSound, IsSettled, IsUntouched;
  }

  lemma SeedStepKeepsInv(m: Method, cs: seq<Configuration>, r: Run, ch: Choice, r': Run)
    requires Inv(m, cs, r) && SeedStep(m, cs, r, ch, r')
    ensures Inv(m, cs, r')
  {
    VisitKeepsInv(m, cs, r);
    var v, i := Visit(r), r.next;
    SoundIsWellFormed(m, cs, v);
    assert v.streams == r.streams && v.accounts == r.accounts;
    if !CanGenerate(m, cs, v, i) {
      assert IsSettled(m, v.streams[i], v.accounts[i]);
    }
    hide Inv, IsSound, IsReady, IsConfigured, IsSystem, Generate, IsChoice, IsNotOvertaken, IsSettled, Visit,
         StillHavingRequestsToBeGenerated;
    if CanGenerate(m, cs, v, i) {
      SeedIsNotOvertaken(m, cs, v, i);
      GenerateKeepsSound(m, cs, v, i, ch);
    }
    SettlingKeepsInv(m, cs, r, r', i);
  }

  lemma SoundIsWellFormed(m: Method, cs: seq<Configuration>, r: Run)
    requires IsSound(m, cs, r)
    ensures IsWellFormed(m, cs, r)
  {
  }

  lemma SeedIsNotOvertaken(m: Method, cs: seq<Configuration>, r: Run, i: nat)
    requires IsSound(m, cs, r) && r.next <= |cs| && i < |cs|
    ensures IsNotOvertaken(m, cs, r, i)
  {
  }

  lemma StatusUpdateKeepsInv(m: Method, cs: seq<Configuration>, r: Run)
    requires Inv(m, cs, r) && r.next == |cs|
    ensures Inv(m, cs, StatusUpdate(r))
  {
    hide IsConfigured, IsReady, IsBalanced, CurrentDateTime, IsSettled;
    var u := StatusUpdate(r);
    assert IsWellFormed(m, cs, u);
    forall i | 0 <= i < |cs| && u.accounts[i].slot.Some?
      ensures HoldsRequestOf(m, cs, u, i, u.accounts[i].slot.value)
    {
      assert HoldsRequestOf(m, cs, r, i, r.accounts[i].slot.value);
    }
  }

  /** After a pop the stream in hand stands where the popped request did. */
  lemma PoppedIsNotOvertaken(m: Method, cs: seq<Configuration>, r: Run, stamp: int)
    requires IsSound(m, cs, r) && r.next > |cs| && IsEarliest(r.queue, stamp)
    ensures IsBookingAt(cs, r.queue, stamp) && IsWellFormed(m, cs, Pop(cs, r, stamp))
    ensures IsNotOvertaken(m, cs, Pop(cs, r, stamp), StreamAt(cs, r.queue, stamp))
  {
    PopKeepsSound(m, cs, r, stamp);
    PoppedEvent(m, cs, r, stamp);
    hide IsConfigured, IsReady, CurrentDateTime, SlotsAreQueued, QueueIsSlotted, CountsAgree, IsBalanced;
  }

  lemma LoopStepKeepsInv(m: Method, cs: seq<Configuration>, r: Run, stamp: int, ch: Choice, r': Run)
    requires Inv(m, cs, r) && LoopStep(m, cs, r, stamp, ch, r')
    ensures Inv(m, cs, r')
  {
    assert IsSound(m, cs, r);
    hide Inv, IsSound, IsReady, IsConfigured, IsSystem, Generate, IsChoice, IsNotOvertaken, StreamAt, IsBookingAt;
    PopKeepsSound(m, cs, r, stamp);
    PoppedIsNotOvertaken(m, cs, r, stamp);
    var p, i := Pop(cs, r, stamp), StreamAt(cs, r.queue, stamp);
    SoundIsWellFormed(m, cs, p);
    if CanGenerate(m, cs, p, i) {
      GenerateKeepsSound(m, cs, p, i, ch);
    }
    SettlingKeepsInv(m, cs, r, r', i);
  }

  lemma StepKeepsInv(m: Method, cs: seq<Configuration>, r: Run, r': Run)
    requires Inv(m, cs, r) && Step(m, cs, r, r')
    ensures Inv(m, cs, r')
  {
    if r.next == |cs| && r' == StatusUpdate(r) {
      StatusUpdateKeepsInv(m, cs, r);
    } else if ch :| SeedStep(m, cs, r, ch, r') {
      SeedStepKeepsInv(m, cs, r, ch, r');
    } else {
      var stamp, ch :| LoopStep(m, cs, r, stamp, ch, r');
      LoopStepKeepsInv(m, cs, r, stamp, ch, r');
    }
  }

  lemma StartHasInv(m: Method, cs: seq<Configuration>, r: Run)
    requires IsStart(m, cs, r)
    ensures Inv(m, cs, r)
  {
    hide IsConfigured, Supports, IsConsistent, IsSystem, CurrentDateTime, Sum;
    SumOfZeros(PendingCounts(r.accounts));
    SumOfZeros(PoppedCounts(r.accounts));
    SumOfZeros(RejectedCounts(r.accounts));
  }

  /** Every state that any run goes through, under either method and for all draws and stamps,
      satisfies the invariant. */
  lemma {:induction false} TraceHasInv(m: Method, cs: seq<Configuration>, trace: seq<Run>, k: nat)
    requires IsTrace(m, cs, trace) && k < |trace|
    ensures Inv(m, cs, trace[k])
  {
    hide IsStart, Step, Inv;
    if k == 0 {
      StartHasInv(m, cs, trace[0]);
    } else {
      TraceHasInv(m, cs, trace, k - 1);
      assert Step(m, cs, trace[k - 1], trace[k - 1 + 1]);
      StepKeepsInv(m, cs, trace[k - 1], trace[k]);
    }
  }
}

/** What every step of a run keeps: the balance between the streams, the queue and the status. */
module DriverInvariant {
  import opened ContinuousAttributeLite
  import opened DateTime
  import opened Delivery
  import opened DemandStreamKey
  import opened DemandStreamModel
  import opened DriverModel
  import opened Options
  import opened StreamRuns
  import opened Sums

  function Max(a: int, b: int): int {
    if a < b then b else a
  }

  function Pending(a: Account): int {
    if a.slot.Some? then 1 else 0
  }

  /** The books of one stream balance.  A stream has at most one event in the queue, and at most
      one rejected request in a run: nothing is generated for it after that. */
  ghost predicate IsBalanced(m: Method, c: Configuration, s: State, a: Account) {
    && IsReady(m, c, s)
    && a.queued == a.popped + Pending(a)
    && a.rejected <= 1
    && (a.rejected == 1 ==> a.slot.None?)
    && (m.StatisticsOrder? ==>
          && s.numberOfRequestsGeneratedSoFar == a.queued + a.rejected
          && s.numberOfRequestsGeneratedSoFar <= Max(0, s.totalNumberOfRequestsToBeGenerated)
          && (LandsInTime(c) ==> a.rejected == 0))
    && (m.PoissonProcess? ==>
          && s.numberOfRequestsGeneratedSoFar == a.queued
          && (s.stillHavingRequestsToBeGenerated <==> a.rejected == 0))
  }

  /** A stream that has been started and has no event in the queue is complete, unless its last
      request was rejected. */
  ghost predicate IsSettled(m: Method, s: State, a: Account) {
    a.slot.None? && a.rejected == 0 ==> !StillHavingRequestsToBeGenerated(m, s)
  }

  /** The event at the stamp is the pending request of stream i, and carries the date-time that the
      state of the stream stands for. */
  ghost predicate HoldsRequestOf(m: Method, cs: seq<Configuration>, r: Run, i: nat, stamp: int)
    requires i < |cs| == |r.streams| && IsConfigured(cs[i])
  {
    && stamp in r.queue && r.queue[stamp].Booking?
    && r.queue[stamp].request.generatorKey == KeyStrings(cs)[i]
    && r.queue[stamp].request.requestDateTime == CurrentDateTime(m, cs[i], r.streams[i])
  }

  /** Every pending event is in the queue under its slot. */
  ghost predicate SlotsAreQueued(m: Method, cs: seq<Configuration>, r: Run)
    requires IsWellFormed(m, cs, r)
  {
    forall i :: 0 <= i < |cs| && r.accounts[i].slot.Some? ==>
      HoldsRequestOf(m, cs, r, i, r.accounts[i].slot.value)
  }

  /** Every event in the queue is pending for the stream that its string finds. */
  ghost predicate QueueIsSlotted(m: Method, cs: seq<Configuration>, r: Run)
    requires IsWellFormed(m, cs, r)
  {
    forall t :: t in r.queue ==>
      IsBookingAt(cs, r.queue, t) && r.accounts[StreamAt(cs, r.queue, t)].slot == Some(t)
  }

  function PendingCounts(accounts: seq<Account>): seq<int> {
    seq(|accounts|, i requires 0 <= i < |accounts| => Pending(accounts[i]))
  }

  function PoppedCounts(accounts: seq<Account>): seq<int> {
    seq(|accounts|, i requires 0 <= i < |accounts| => accounts[i].popped)
  }

  function RejectedCounts(accounts: seq<Account>): seq<int> {
    seq(|accounts|, i requires 0 <= i < |accounts| => accounts[i].rejected)
  }

  /** Queue, popped stamps and status agree with the accounts. */
  ghost predicate CountsAgree(cs: seq<Configuration>, r: Run) {
    && |r.queue| == Sum(PendingCounts(r.accounts))
    && |r.stamps| == Sum(PoppedCounts(r.accounts))
    && r.early + r.decrements == Sum(RejectedCounts(r.accounts))
    && (r.next > |cs| ==> r.actual == Sum(Totals(r.streams)) - r.decrements)
    && (r.next <= |cs| ==> r.early == 0 && r.stamps == [])
  }

  /** As long as no stamp collided, events lie at their own date-times, and what has been popped is
      in order and not later than anything in the queue. */
  ghost predicate IsChronological(cs: seq<Configuration>, r: Run) {
    !r.collided ==>
      && (forall t :: t in r.queue && r.queue[t].Booking? ==> r.queue[t].request.requestDateTime == t)
      && NeverDecreases(r.stamps)
      && (forall t :: t in r.queue && r.stamps != [] ==> r.stamps[|r.stamps| - 1] <= t)
  }

  ghost predicate AllBalanced(m: Method, cs: seq<Configuration>, r: Run)
    requires |r.streams| == |r.accounts| == |cs|
  {
    forall i :: 0 <= i < |cs| ==> IsBalanced(m, cs[i], r.streams[i], r.accounts[i])
  }

  /** What Pop and Generate keep, whether or not the stream in hand is settled. */
  ghost predicate IsSound(m: Method, cs: seq<Configuration>, r: Run) {
    && IsWellFormed(m, cs, r)
    && AllBalanced(m, cs, r)
    && SlotsAreQueued(m, cs, r) && QueueIsSlotted(m, cs, r)
    && CountsAgree(cs, r) && IsChronological(cs, r)
  }

  ghost predicate IsUntouched(s: State, a: Account) {
    && a == Account(0, 0, 0, None, [])
    && s.numberOfRequestsGeneratedSoFar == 0 && s.stillHavingRequestsToBeGenerated && s.firstDateTimeRequest
  }

  /** The invariant between steps. */
  ghost predicate Inv(m: Method, cs: seq<Configuration>, r: Run) {
    && IsSound(m, cs, r)
    && r.next <= |cs| + 1
    && (forall i :: 0 <= i < |cs| && i < r.next ==> IsSettled(m, r.streams[i], r.accounts[i]))
    && (forall i :: 0 <= i < |cs| && r.next <= i ==> IsUntouched(r.streams[i], r.accounts[i]))
  }

  // ---------------------------------------------------------------- Requests and their streams

  /** Under the Poisson method it is the sentinel, and nothing else, that does not precede
      departure; under order statistics everything does when the pattern lands in time. */
  lemma NextTimePasses(m: Method, c: Configuration, s: State, preferredTime: int)
    requires IsReady(m, c, s) && StillHavingRequestsToBeGenerated(m, s)
    ensures var (s', t) := NextTime(m, c, s);
            && (m.StatisticsOrder? && LandsInTime(c) && EarliestTime(c) <= preferredTime ==>
                  IsBeforeDeparture(c.key.date, preferredTime, t))
            && (m.PoissonProcess? ==>
                  (s'.stillHavingRequestsToBeGenerated <==> IsBeforeDeparture(c.key.date, preferredTime, t)))
  {
    hide Quantile, ConvertFloatIntoDuration, DateOf, IsConfigured, IsPoissonPattern, NextPoissonTime, NextOrderTime,
         LandsInTime, EarliestTime;
    NextTimeOutcome(m, c, s);
    var s' := NextTime(m, c, s).0;
    if m.PoissonProcess? {
      if s'.stillHavingRequestsToBeGenerated {
        AtLeastOneDayBeforeDeparture(c.key.date, s'.dateTimeLastRequest, preferredTime);
      } else {
        SentinelIsAfterDeparture(c.key.date, preferredTime);
      }
    } else if LandsInTime(c) && EarliestTime(c) <= preferredTime {
      LandingRequestPasses(c, s, preferredTime);
    }
  }

  /** What a call of generateNextRequest on a stream does to it and to its counter. */
  lemma NextRequestOutcome(m: Method, c: Configuration, s: State, shared: real)
    requires IsReady(m, c, s) && StillHavingRequestsToBeGenerated(m, s)
    ensures var (s', q) := NextRequest(m, c, s, shared);
            && IsReady(m, c, s')
            && s'.totalNumberOfRequestsToBeGenerated == s.totalNumberOfRequestsToBeGenerated
            && q.generatorKey == ToString(c.lib, c.key)
            && CurrentDateTime(m, c, s) <= q.requestDateTime
            && (Passes(q) ==> q.requestDateTime == CurrentDateTime(m, c, s'))
            && (m.StatisticsOrder? ==>
                  && s'.numberOfRequestsGeneratedSoFar == s.numberOfRequestsGeneratedSoFar + 1
                  && (LandsInTime(c) ==> Passes(q)))
            && (m.PoissonProcess? ==>
                  && (s'.stillHavingRequestsToBeGenerated <==> Passes(q))
                  && s'.numberOfRequestsGeneratedSoFar
                     == s.numberOfRequestsGeneratedSoFar + if Passes(q) then 1 else 0)
  {
    hide NextTime, WTP, Quantile, RequestDateTime, IsBeforeDeparture, IsConfigured, IsPoissonPattern,
         LandsInTime, EarliestTime, PreferredTime, ToString;
    var t := AfterPointOfSale(s);
    NextTimeOutcome(m, c, t);
    var q := NextRequest(m, c, s, shared).1;
    RequestIsNotEarly(m, c, s, shared);
    NextTimePasses(m, c, t, q.preferredDepartureTime);
  }
}

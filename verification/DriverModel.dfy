/** The demand generator as a state machine: the streams, the event queue and the progress status
    of one run, and the steps that generateFirstRequests and the main loop of the batch take.  The
    methods of DemandManager and GenerateDemand are proved to take exactly these steps. */
module DriverModel {
  import opened DateTime
  import opened DemandStreamKey
  import opened DemandStreamModel
  import opened EventQueue
  import opened Options
  import opened RandomGeneration
  import opened StreamRuns
  import opened Sums

  /** What the run did for one stream: events queued and popped, requests rejected because they do
      not precede departure, the stamp of the event that is still in the queue, and all requests that
      were generated. */
  datatype Account = Account(
    queued: nat,
    popped: nat,
    rejected: nat,
    slot: Option<int>,
    requests: seq<BookingRequest>)

  function NewAccounts(n: nat): seq<Account> {
    seq(n, i requires 0 <= i < n => Account(0, 0, 0, None, []))
  }

  /** One run.  Every request takes one draw of the shared generator: order lists the streams in the
      order of their requests, and the draws are those of the tape from position base on.  next is the
      stream that generateFirstRequests comes to; it is the number of streams before the final status
      update and one more in the main loop.  stamps are the stamps popped so far; early and decrements
      count rejections, before and after the status update; collided says that some event had to take
      another stamp than its own date-time. */
  datatype Run = Run(
    streams: seq<State>,
    queue: Queue,
    actual: int,
    next: nat,
    accounts: seq<Account>,
    stamps: seq<int>,
    early: nat,
    decrements: nat,
    collided: bool,
    tape: Engine,
    base: nat,
    order: seq<nat>)

  /** Before its first step; the shared generator stands at position base of the tape. */
  function StartRun(streams: seq<State>, actual: int, tape: Engine, base: nat): Run {
    Run(streams, map[], actual, 0, NewAccounts(|streams|), [], 0, 0, false, tape, base, [])
  }

  /** What a step leaves open: the stamp that the queue gives. */
  datatype Choice = Choice(stamp: int)

  /** Where the shared generator stands, and its next draw. */
  function SharedPosition(r: Run): nat {
    r.base + |r.order|
  }

  function SharedDraw(r: Run): real {
    r.tape.uniform(SharedPosition(r))
  }

  function KeyStrings(cs: seq<Configuration>): seq<string> {
    seq(|cs|, i requires 0 <= i < |cs| => ToString(cs[i].lib, cs[i].key))
  }

  /** Streams that the method supports, each found under its own string. */
  ghost predicate IsSystem(m: Method, cs: seq<Configuration>) {
    && (forall i :: 0 <= i < |cs| ==> IsConfigured(cs[i]) && Supports(m, cs[i]))
    && (forall i, j :: 0 <= i < j < |cs| ==> KeyStrings(cs)[i] != KeyStrings(cs)[j])
  }

  /** Look-up of a stream by its string. */
  function Find(keys: seq<string>, key: string): (i: nat)
    requires key in keys
    ensures i < |keys| && keys[i] == key
  {
    if keys[0] == key then 0 else 1 + Find(keys[1..], key)
  }

  ghost predicate IsWellFormed(m: Method, cs: seq<Configuration>, r: Run) {
    && IsSystem(m, cs)
    && |r.streams| == |r.accounts| == |cs|
    && forall i :: 0 <= i < |cs| ==> IsReady(m, cs[i], r.streams[i])
  }

  ghost predicate CanGenerate(m: Method, cs: seq<Configuration>, r: Run, i: nat) {
    && IsWellFormed(m, cs, r) && i < |cs|
    && StillHavingRequestsToBeGenerated(m, r.streams[i])
  }

  /** What the stream returns, and its state after that. */
  ghost function NextOf(m: Method, cs: seq<Configuration>, r: Run, i: nat): (State, BookingRequest)
    requires CanGenerate(m, cs, r, i)
  {
    NextRequest(m, cs[i], r.streams[i], SharedDraw(r))
  }

  ghost function GeneratedRequest(m: Method, cs: seq<Configuration>, r: Run, i: nat): BookingRequest
    requires CanGenerate(m, cs, r, i)
  {
    NextOf(m, cs, r, i).1
  }

  predicate Passes(q: BookingRequest) {
    IsBeforeDeparture(q.departureDate, q.preferredDepartureTime, q.requestDateTime)
  }

  /** The queue may give the chosen stamp to the request, if the request is queued at all. */
  ghost predicate IsChoice(m: Method, cs: seq<Configuration>, r: Run, i: nat, ch: Choice)
    requires CanGenerate(m, cs, r, i)
  {
    var q := GeneratedRequest(m, cs, r, i);
    Passes(q) ==> IsStampFor(r.queue, q.requestDateTime, ch.stamp)
  }

  ghost function Enqueue(r: Run, i: nat, q: BookingRequest, stamp: int): Run
    requires i < |r.accounts|
  {
    var a := r.accounts[i];
    r.(queue := r.queue[stamp := Booking(q)],
       accounts := r.accounts[i := a.(queued := a.queued + 1, slot := Some(stamp), requests := a.requests + [q])],
       collided := r.collided || stamp != q.requestDateTime)
  }

  ghost function Reject(r: Run, i: nat, q: BookingRequest): Run
    requires i < |r.accounts|
  {
    var a := r.accounts[i];
    r.(actual := r.actual - 1,
       decrements := r.decrements + 1,
       accounts := r.accounts[i := a.(rejected := a.rejected + 1, requests := a.requests + [q])])
  }

  /** Stream i has taken its draws, and one of the shared generator. */
  ghost function Moved(r: Run, i: nat, s: State): Run
    requires i < |r.streams|
  {
    r.(streams := r.streams[i := s], order := r.order + [i])
  }

  /** DemandManager::generateNextRequest for stream i: the next request is queued, or rejected with
      a decrement of the status. */
  ghost function Generate(m: Method, cs: seq<Configuration>, r: Run, i: nat, ch: Choice): Run
    requires CanGenerate(m, cs, r, i)
  {
    var (s, q) := NextOf(m, cs, r, i);
    var moved := Moved(r, i, s);
    if Passes(q) then Enqueue(moved, i, q, ch.stamp) else Reject(moved, i, q)
  }

  /** One turn of generateFirstRequests starts with the first-request flag of the stream. */
  ghost function Visit(r: Run): Run
    requires r.next < |r.streams|
  {
    r.(streams := r.streams[r.next := r.streams[r.next].(firstDateTimeRequest := true)], next := r.next + 1)
  }

  /** One turn of the loop of generateFirstRequests. */
  ghost predicate SeedStep(m: Method, cs: seq<Configuration>, r: Run, ch: Choice, r': Run) {
    && IsWellFormed(m, cs, r) && r.next < |cs|
    && var v := Visit(r);
       if CanGenerate(m, cs, v, r.next)
       then IsChoice(m, cs, v, r.next, ch) && r' == Generate(m, cs, v, r.next, ch)
       else r' == v
  }

  function Totals(streams: seq<State>): seq<int> {
    seq(|streams|, i requires 0 <= i < |streams| => streams[i].totalNumberOfRequestsToBeGenerated)
  }

  /** The end of generateFirstRequests overwrites the status with the sum of the totals, and so
      forgets the decrements made until then. */
  ghost function StatusUpdate(r: Run): Run {
    r.(actual := Sum(Totals(r.streams)), early := r.decrements, decrements := 0, next := r.next + 1)
  }

  ghost predicate IsBookingAt(cs: seq<Configuration>, q: Queue, stamp: int) {
    stamp in q && q[stamp].Booking? && q[stamp].request.generatorKey in KeyStrings(cs)
  }

  /** The stream that the event at a stamp belongs to. */
  ghost function StreamAt(cs: seq<Configuration>, q: Queue, stamp: int): (i: nat)
    requires IsBookingAt(cs, q, stamp)
    ensures i < |cs|
  {
    Find(KeyStrings(cs), q[stamp].request.generatorKey)
  }

  ghost function Pop(cs: seq<Configuration>, r: Run, stamp: int): Run
    requires |r.accounts| == |cs| && IsBookingAt(cs, r.queue, stamp)
  {
    var i := StreamAt(cs, r.queue, stamp);
    var a := r.accounts[i];
    r.(queue := r.queue - {stamp},
       accounts := r.accounts[i := a.(popped := a.popped + 1, slot := None)],
       stamps := r.stamps + [stamp])
  }

  /** One turn of the main loop: pop the earliest event; if its stream has more requests, generate
      the next one. */
  ghost predicate LoopStep(m: Method, cs: seq<Configuration>, r: Run, stamp: int, ch: Choice, r': Run) {
    && IsWellFormed(m, cs, r) && r.next == |cs| + 1
    && IsEarliest(r.queue, stamp) && IsBookingAt(cs, r.queue, stamp)
    && var p, i := Pop(cs, r, stamp), StreamAt(cs, r.queue, stamp);
       if CanGenerate(m, cs, p, i)
       then IsChoice(m, cs, p, i, ch) && r' == Generate(m, cs, p, i, ch)
       else r' == p
  }

  /** Any step of the run. */
  ghost predicate Step(m: Method, cs: seq<Configuration>, r: Run, r': Run) {
    || (exists ch :: SeedStep(m, cs, r, ch, r'))
    || (r.next == |cs| && r' == StatusUpdate(r))
    || (exists stamp, ch :: LoopStep(m, cs, r, stamp, ch, r'))
  }

  /** A run starts with streams that have been initialised or reset, and an empty queue. */
  ghost predicate IsStart(m: Method, cs: seq<Configuration>, r: Run) {
    && IsWellFormed(m, cs, r)
    && r.queue == map[] && r.next == 0 && r.stamps == [] && r.early == 0 && r.decrements == 0 && !r.collided
    && r.order == []
    && (forall i :: 0 <= i < |cs| ==> r.accounts[i] == Account(0, 0, 0, None, []))
    && (forall i :: 0 <= i < |cs| ==>
          && r.streams[i].numberOfRequestsGeneratedSoFar == 0
          && r.streams[i].stillHavingRequestsToBeGenerated
          && r.streams[i].firstDateTimeRequest)
  }

  /** The states that a run goes through. */
  ghost predicate IsTrace(m: Method, cs: seq<Configuration>, trace: seq<Run>) {
    && trace != [] && IsStart(m, cs, trace[0])
    && forall k :: 0 <= k < |trace| - 1 ==> Step(m, cs, trace[k], trace[k + 1])
  }
}

/** DemandManager::generateCancellation, and the queueing and counting of cancellations in
    trademgen/service/TRADEMGEN_Service.cpp. */
module Cancellations {
  import opened DateTime
  import opened EventQueue
  import opened Options
  import opened RandomGeneration
  import opened RealArithmetic

  const CANCELLATION_PROBABILITY := 0.05

  /** What a cancellation needs of a travel solution: for each segment the classes of the chosen fare
      option and the identifiers of the segment's classes. */
  datatype TravelSolution = TravelSolution(
    segmentPath: seq<string>,
    classPath: seq<string>,
    classObjectIDs: seq<map<string, int>>)

  function Midnight(date: int): int {
    date * DAY
  }

  /** Whole seconds of a duration, cut towards zero. */
  function TotalSeconds(duration: int): int {
    if duration >= 0 then duration / 1000 else -((-duration) / 1000)
  }

  function Part(x: real, share: real): real {
    x * share
  }

  /** A share of a whole number, cut towards zero. */
  function ShareOf(n: int, share: real): int {
    Truncate(Part(n as real, share))
  }

  /** Seconds between the cancellation and departure midnight, for a draw below the probability. */
  function SecondsToDeparture(requestDateTime: int, departureDate: int, u: real): int {
    ShareOf(TotalSeconds(Midnight(departureDate) - requestDateTime), u / CANCELLATION_PROBABILITY)
  }

  function CancellationDateTime(requestDateTime: int, departureDate: int, u: real): int {
    Midnight(departureDate) - 1000 * SecondsToDeparture(requestDateTime, departureDate, u)
  }

  lemma ScaledDraw(u: real)
    requires 0.0 <= u < CANCELLATION_PROBABILITY
    ensures 0.0 <= u / CANCELLATION_PROBABILITY < 1.0
  {
  }

  lemma ProperShare(x: real, share: real)
    requires 0.0 <= share < 1.0
    ensures 0.0 <= x ==> 0.0 <= Part(x, share) <= x
    ensures x < 0.0 ==> x < Part(x, share) <= 0.0
  {
    if 0.0 <= x {
      MulMonotone(x, 0.0, share);
      MulMonotone(x, share, 1.0);
    } else {
      MulMonotone(-x, 0.0, share);
      MulStrict(-x, share, 1.0);
    }
  }

  /** A share below one of a whole number, cut towards zero, lies between zero and that number, and
      short of the number if it is negative. */
  lemma ShareOfSeconds(n: int, share: real)
    requires 0.0 <= share < 1.0
    ensures 0 <= n ==> 0 <= ShareOf(n, share) <= n
    ensures n < 0 ==> n < ShareOf(n, share) <= 0
  {
    hide Truncate, Part;
    ProperShare(n as real, share);
    TruncateBetween(Part(n as real, share), n);
  }

  lemma TruncateBetween(y: real, n: int)
    ensures 0.0 <= y <= n as real ==> 0 <= Truncate(y) <= n
    ensures n as real < y <= 0.0 ==> n < Truncate(y) <= 0
  {
  }

  /** Despite both truncations, and for requests after departure midnight too: the cancellation is
      not before the request exactly if the request is not after departure midnight, and then it
      lies between the two. */
  lemma CancellationIsBetween(requestDateTime: int, departureDate: int, u: real)
    requires 0.0 <= u < CANCELLATION_PROBABILITY
    ensures requestDateTime <= CancellationDateTime(requestDateTime, departureDate, u)
            <==> requestDateTime <= Midnight(departureDate)
    ensures requestDateTime <= Midnight(departureDate) ==>
              CancellationDateTime(requestDateTime, departureDate, u) <= Midnight(departureDate)
  {
    hide ShareOf;
    var left := Midnight(departureDate) - requestDateTime;
    ScaledDraw(u);
    ShareOfSeconds(TotalSeconds(left), u / CANCELLATION_PROBABILITY);
    assert 0 <= left ==> 0 <= 1000 * TotalSeconds(left) <= left;
    assert left < 0 ==> left <= 1000 * TotalSeconds(left) <= 0;
  }

  lemma PartOfQuotient(x: real, u: real)
    ensures Part(x, u / 0.05) * 0.05 == u * x
  {
    assert u / 0.05 == 20.0 * u;
    PartOfTwenty(x, u, u / 0.05);
  }

  lemma PartOfTwenty(x: real, u: real, share: real)
    requires share == 20.0 * u
    ensures Part(x, share) * 0.05 == u * x
  {
    MulEqual(x, share, 20.0 * u);
    assert x * (20.0 * u) == 20.0 * (x * u);
  }

  lemma WholePart(y: real, k: int, product: real)
    requires 0.0 <= y && y * 0.05 == product
    ensures k == Truncate(y) <==> k as real * 0.05 <= product < (k + 1) as real * 0.05
  {
    assert k == Truncate(y) <==> k as real <= y < k as real + 1.0;
  }

  /** Second k of the seconds left answers the draw: the draws that it answers form an interval whose
      length is the twentieth part of a second over the seconds left. */
  predicate Answers(left: int, k: int, u: real) {
    k as real * 0.05 <= u * left as real < (k + 1) as real * 0.05
  }

  lemma ShareAnswers(left: nat, u: real, k: int)
    requires 0.0 <= u < 0.05
    ensures k == ShareOf(left, u / CANCELLATION_PROBABILITY) <==> Answers(left, k, u)
  {
    hide Truncate, Part;
    ScaledDraw(u);
    ProperShare(left as real, u / CANCELLATION_PROBABILITY);
    PartOfQuotient(left as real, u);
    WholePart(Part(left as real, u / CANCELLATION_PROBABILITY), k, u * left as real);
  }

  /** The draw is spread evenly over the whole seconds that are left until departure midnight: the
      cancellation comes k seconds before midnight exactly for the draws that second k answers. */
  lemma CancellationFollowsDraw(requestDateTime: int, departureDate: int, u: real, k: int)
    requires 0.0 <= u < 0.05 && requestDateTime <= departureDate * 86_400_000
    ensures CancellationDateTime(requestDateTime, departureDate, u) == departureDate * 86_400_000 - 1000 * k
            <==> Answers((departureDate * 86_400_000 - requestDateTime) / 1000, k, u)
  {
    hide ShareOf, Answers;
    var left := (departureDate * 86_400_000 - requestDateTime) / 1000;
    assert left == TotalSeconds(Midnight(departureDate) - requestDateTime);
    ShareAnswers(left, u, k);
  }

  /** A cancellation results from a draw below the probability and a request that is not after
      departure midnight. */
  predicate IsProduced(requestDateTime: int, departureDate: int, u: real) {
    u < CANCELLATION_PROBABILITY && requestDateTime <= Midnight(departureDate)
  }

  /** The first class of every segment has an identifier. */
  ghost predicate HasClasses(t: TravelSolution) {
    && |t.classObjectIDs| <= |t.classPath|
    && forall i :: 0 <= i < |t.classObjectIDs| ==> t.classPath[i] != "" && t.classPath[i][..1] in t.classObjectIDs[i]
  }

  /** The identifiers of the first classes, segment by segment. */
  ghost predicate AreClassIDs(t: TravelSolution, ids: seq<int>)
    requires HasClasses(t)
  {
    && |ids| == |t.classObjectIDs|
    && forall i :: 0 <= i < |ids| ==> ids[i] == t.classObjectIDs[i][t.classPath[i][..1]]
  }

  /** With left the whole seconds from the request to departure midnight, and k those from the
      cancellation to midnight, k stands to left as the draw stands to 0.05. */
  ghost predicate IsSpreadEvenly(requestDateTime: int, departureDate: int, u: real, dateTime: int) {
    var left, k := (Midnight(departureDate) - requestDateTime) / 1000, (Midnight(departureDate) - dateTime) / 1000;
    dateTime == Midnight(departureDate) - 1000 * k && Answers(left, k, u)
  }

  method GenerateCancellation(generator: RandomGeneration, t: TravelSolution, partySize: int,
                              requestDateTime: int, departureDate: int) returns (r: Option<Cancellation>)
    requires IsEngine(generator.engine)
    requires IsProduced(requestDateTime, departureDate, generator.engine.uniform(generator.position)) ==> HasClasses(t)
    modifies generator
    ensures generator.position == old(generator.position) + 1
    ensures var u := generator.engine.uniform(old(generator.position));
            && (r.Some? <==> IsProduced(requestDateTime, departureDate, u))
            && (r.Some? ==>
                  && requestDateTime <= r.value.dateTime <= Midnight(departureDate)
                  && r.value.dateTime == CancellationDateTime(requestDateTime, departureDate, u)
                  && IsSpreadEvenly(requestDateTime, departureDate, u, r.value.dateTime)
                  && AreClassIDs(t, r.value.classIDs)
                  && r.value.segmentPath == t.segmentPath && r.value.partySize == partySize)
  {
    hide SecondsToDeparture, Answers;
    var u := generator.Draw();
    if u >= CANCELLATION_PROBABILITY {
      return None;
    }
    CancellationIsBetween(requestDateTime, departureDate, u);
    if requestDateTime <= Midnight(departureDate) {
      CancellationFollowsDraw(requestDateTime, departureDate, u, SecondsToDeparture(requestDateTime, departureDate, u));
    }
    var cancellationTime := Midnight(departureDate) - 1000 * SecondsToDeparture(requestDateTime, departureDate, u);
    if cancellationTime - requestDateTime < 0 {
      return None;
    }
    var ids: seq<int> := [];
    for i := 0 to |t.classObjectIDs|
      invariant |ids| == i
      invariant forall k :: 0 <= k < i ==> ids[k] == t.classObjectIDs[k][t.classPath[k][..1]]
    {
      ids := ids + [t.classObjectIDs[i][t.classPath[i][..1]]];
    }
    r := Some(Cancellation(t.segmentPath, ids, partySize, cancellationTime));
  }

  // ---------------------------------------------------------------- The status of cancellations

  /** The status after one more cancellation: it is created with the first one. */
  function Counted(status: Option<int>): Option<int> {
    if status.None? then Some(1) else Some(status.value + 1)
  }

  /** TRADEMGEN_Service::generateCancellation: a cancellation is queued and counted. */
  method GenerateAndQueue(service: EventService, generator: RandomGeneration, t: TravelSolution, partySize: int,
                          requestDateTime: int, departureDate: int) returns (produced: bool, ghost stamp: int)
    requires IsEngine(generator.engine)
    requires IsProduced(requestDateTime, departureDate, generator.engine.uniform(generator.position)) ==> HasClasses(t)
    modifies service, generator
    ensures produced <==> IsProduced(requestDateTime, departureDate, generator.engine.uniform(old(generator.position)))
    ensures generator.position == old(generator.position) + 1
    ensures !produced ==> unchanged(service)
    ensures produced ==>
              && stamp in service.events && service.events[stamp].Cancelled?
              && service.events == old(service.events)[stamp := service.events[stamp]]
              && IsStampFor(old(service.events), service.events[stamp].cancellation.dateTime, stamp)
              && requestDateTime <= service.events[stamp].cancellation.dateTime <= Midnight(departureDate)
              && IsSpreadEvenly(requestDateTime, departureDate, generator.engine.uniform(old(generator.position)),
                                service.events[stamp].cancellation.dateTime)
              && AreClassIDs(t, service.events[stamp].cancellation.classIDs)
              && service.actualTotalNumberOfCancellations == Counted(old(service.actualTotalNumberOfCancellations))
    ensures service.actualTotalNumberOfRequests == old(service.actualTotalNumberOfRequests)
  {
    stamp := 0;
    var cancellation := GenerateCancellation(generator, t, partySize, requestDateTime, departureDate);
    produced := cancellation.Some?;
    if !produced {
      return;
    }
    stamp := service.AddEvent(Cancelled(cancellation.value), cancellation.value.dateTime);
    match service.actualTotalNumberOfCancellations
    case None => service.AddCancellationStatus(1);
    case Some(number) => service.UpdateCancellationStatus(number + 1);
  }

  /** The arguments of one call. */
  datatype Call = Call(travelSolution: TravelSolution, partySize: int, requestDateTime: int, departureDate: int)

  /** The call that is made when the generator stands at a position produces a cancellation. */
  predicate Produces(call: Call, e: Engine, position: nat) {
    IsProduced(call.requestDateTime, call.departureDate, e.uniform(position))
  }

  /** The cancellations that the calls produce, one draw each. */
  function NumberProduced(calls: seq<Call>, e: Engine, position: nat): nat {
    if calls == [] then 0
    else
      var n := |calls| - 1;
      NumberProduced(calls[..n], e, position) + if Produces(calls[n], e, position + n) then 1 else 0
  }

  /** A number of cancellations added to a status, which is there from the first one on. */
  function Added(status: Option<int>, n: nat): Option<int> {
    if n == 0 then status else Some((if status.None? then 0 else status.value) + n)
  }

  lemma CountedAdded(status: Option<int>, n: nat)
    ensures Counted(Added(status, n)) == Added(status, n + 1)
  {
  }

  ghost function CancelledStamps(q: Queue): set<int> {
    set t | t in q && q[t].Cancelled?
  }

  /** q' holds the events of q and n cancellations more. */
  ghost predicate GainsCancellations(q: Queue, q': Queue, n: nat) {
    && (forall t :: t in q ==> t in q' && q'[t] == q[t])
    && (forall t :: t in q' && t !in q ==> q'[t].Cancelled?)
    && |CancelledStamps(q')| == |CancelledStamps(q)| + n
  }

  lemma OneMoreCancellation(q: Queue, q': Queue, n: nat, stamp: int, e: Event)
    requires GainsCancellations(q, q', n) && stamp !in q' && e.Cancelled?
    ensures GainsCancellations(q, q'[stamp := e], n + 1)
  {
    assert CancelledStamps(q'[stamp := e]) == CancelledStamps(q') + {stamp};
  }

  lemma NoMoreCancellations(q: Queue)
    ensures GainsCancellations(q, q, 0)
  {
  }

  lemma OneMoreCall(calls: seq<Call>, i: nat, e: Engine, position: nat)
    requires i < |calls|
    ensures NumberProduced(calls[..i + 1], e, position)
            == NumberProduced(calls[..i], e, position) + if Produces(calls[i], e, position + i) then 1 else 0
  {
    assert calls[..i + 1][..i] == calls[..i];
  }

  /** Any history of calls on one service: the queue gains one cancellation for each call that
      produces one, nothing is lost, and the status grows by their number; from a service without
      status there is one afterwards exactly if something was produced. */
  method GenerateCancellations(service: EventService, generator: RandomGeneration, calls: seq<Call>)
    requires IsEngine(generator.engine)
    requires forall i :: 0 <= i < |calls| && Produces(calls[i], generator.engine, generator.position + i) ==>
               HasClasses(calls[i].travelSolution)
    modifies service, generator
    ensures generator.position == old(generator.position) + |calls|
    ensures var n := NumberProduced(calls, generator.engine, old(generator.position));
            && service.actualTotalNumberOfCancellations == Added(old(service.actualTotalNumberOfCancellations), n)
            && GainsCancellations(old(service.events), service.events, n)
    ensures service.actualTotalNumberOfRequests == old(service.actualTotalNumberOfRequests)
  {
    hide HasClasses, GainsCancellations, Added, IsEngine, IsProduced, NumberProduced;
    ghost var n: nat, position, before := 0, generator.position, service.events;
    NoMoreCancellations(before);
    CallsOfNone(calls, generator.engine, position, service.actualTotalNumberOfCancellations);
    var i := 0;
    while i < |calls|
      invariant i <= |calls| && generator.position == position + i
      invariant n == NumberProduced(calls[..i], generator.engine, position)
      invariant service.actualTotalNumberOfCancellations == Added(old(service.actualTotalNumberOfCancellations), n)
      invariant GainsCancellations(before, service.events, n)
      invariant service.actualTotalNumberOfRequests == old(service.actualTotalNumberOfRequests)
    {
      var call := calls[i];
      ghost var queue := service.events;
      OneMoreCall(calls, i, generator.engine, position);
      CountedAdded(old(service.actualTotalNumberOfCancellations), n);
      assert Produces(call, generator.engine, position + i) ==> HasClasses(call.travelSolution);
      var produced: bool;
      ghost var stamp;
      produced, stamp := GenerateAndQueue(service, generator, call.travelSolution, call.partySize,
                                          call.requestDateTime, call.departureDate);
      if produced {
        OneMoreCancellation(before, queue, n, stamp, service.events[stamp]);
        n := n + 1;
      }
      i := i + 1;
    }
    assert calls[..|calls|] == calls;
  }

  lemma CallsOfNone(calls: seq<Call>, e: Engine, position: nat, status: Option<int>)
    ensures NumberProduced(calls[..0], e, position) == 0 && Added(status, 0) == status
  {
  }
}

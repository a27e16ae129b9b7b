/** The operations of trademgen/command/DemandManager.cpp that run the generator, on the streams,
    the event queue and the shared random generator that the service holds.  Each is proved to take
    steps of the state machine of DriverModel. */
module TrademgenService {
  import opened DateTime
  import opened DemandStream
  import opened DemandStreamKey
  import opened DemandStreamModel
  import opened DriverInvariant
  import opened DriverModel
  import opened DriverSteps
  import opened EventQueue
  import opened RandomGeneration
  import opened StreamRuns
  import opened Sums

  lemma FindsItself(m: Method, cs: seq<Configuration>, i: nat)
    requires IsSystem(m, cs) && i < |cs|
    ensures KeyStrings(cs)[i] in KeyStrings(cs) && Find(KeyStrings(cs), KeyStrings(cs)[i]) == i
  {
    hide IsConfigured;
    var k := Find(KeyStrings(cs), KeyStrings(cs)[i]);
    assert KeyStrings(cs)[k] == KeyStrings(cs)[i];
  }

  lemma SeedFacts(m: Method, cs: seq<Configuration>, r: Run)
    requires Inv(m, cs, r) && r.next < |cs|
    ensures IsWellFormed(m, cs, r) && IsWellFormed(m, cs, Visit(r))
    ensures KeyStrings(cs)[r.next] in KeyStrings(cs) && Find(KeyStrings(cs), KeyStrings(cs)[r.next]) == r.next
  {
    VisitKeepsInv(m, cs, r);
    SoundIsWellFormed(m, cs, Visit(r));
    SoundIsWellFormed(m, cs, r);
    FindsItself(m, cs, r.next);
  }

  /** How far a stream is: requests generated so far, expected, and drawn. */
  datatype ProgressStatus = ProgressStatus(current: int, expected: real, actual: int)

  lemma CanGenerateFacts(m: Method, cs: seq<Configuration>, r: Run, i: nat)
    requires CanGenerate(m, cs, r, i)
    ensures i < |cs| == |r.streams| == |r.accounts|
  {
    hide IsSystem, IsReady;
  }

  class TrademgenService {
    const eventService: EventService
    const uniformGenerator: RandomGeneration
    var demandStreams: seq<DemandStream>

    ghost predicate Valid()
      reads this
    {
      && (forall i :: 0 <= i < |demandStreams| ==> demandStreams[i].Valid())
      && (forall i :: 0 <= i < |demandStreams| ==>
            uniformGenerator !in demandStreams[i].Repr() && eventService !in demandStreams[i].Repr()
            && this !in demandStreams[i].Repr())
      && (forall i, j :: 0 <= i < j < |demandStreams| ==> demandStreams[i].Repr() !! demandStreams[j].Repr())
    }

    /** The objects of the streams. */
    ghost function StreamObjects(): set<object>
      reads this
    {
      set i, o | 0 <= i < |demandStreams| && o in demandStreams[i].Repr() :: o
    }

    ghost function Configs(): (cs: seq<Configuration>)
      reads this
      ensures |cs| == |demandStreams|
      ensures forall i :: 0 <= i < |cs| ==> cs[i] == demandStreams[i].Config()
    {
      seq(|demandStreams|, i requires 0 <= i < |demandStreams| reads this => demandStreams[i].Config())
    }

    /** The state of the machine is what the objects hold. */
    ghost predicate Shows(r: Run)
      reads this, eventService, uniformGenerator, StreamObjects()
    {
      && |r.streams| == |demandStreams|
      && (forall i :: 0 <= i < |demandStreams| ==>
            assert demandStreams[i].Repr() <= StreamObjects();
            r.streams[i] == demandStreams[i].Contents())
      && r.queue == eventService.events
      && r.actual == eventService.actualTotalNumberOfRequests
      && r.tape == uniformGenerator.engine && SharedPosition(r) == uniformGenerator.position
    }

    /** The service is not an object of its streams, so they may change without it. */
    lemma IsApart(r: Run)
      requires Valid() && Shows(r)
      ensures this !in StreamObjects() && |r.streams| == |demandStreams| == |Configs()|
    {
    }

    lemma ObjectsAreApart()
      requires Valid()
      ensures this !in StreamObjects() && eventService !in StreamObjects() && uniformGenerator !in StreamObjects()
      ensures forall i :: 0 <= i < |demandStreams| ==> demandStreams[i].Repr() <= StreamObjects()
    {
    }

    lemma ObjectsAreAllocated()
      ensures forall o :: o in StreamObjects() ==> allocated(o)
    {
    }

    /** The streams are apart from one another. */
    lemma StreamsAreApart(i: nat)
      requires Valid() && i < |demandStreams|
      ensures demandStreams[i].Repr() <= StreamObjects()
      ensures forall j :: 0 <= j < |demandStreams| && j != i ==> demandStreams[j].Repr() !! demandStreams[i].Repr()
    {
      hide IsConfigured, DemandStream.Config, DemandStream.Valid, DemandStream.Repr;
    }

    constructor (uniformGenerator: RandomGeneration)
      ensures Valid() && demandStreams == [] && this.uniformGenerator == uniformGenerator
      ensures fresh(eventService) && eventService.events == map[]
      ensures eventService.expectedTotalNumberOfRequests == 0.0
    {
      this.uniformGenerator := uniformGenerator;
      eventService := new EventService();
      demandStreams := [];
    }

    /** A new stream, made of new objects, joins the service. */
    method AddEventGenerator(s: DemandStream)
      requires Valid() && s.Valid()
      requires s.Repr() !! StreamObjects()
      requires uniformGenerator !in s.Repr() && eventService !in s.Repr() && this !in s.Repr()
      modifies this`demandStreams
      ensures Valid() && demandStreams == old(demandStreams) + [s]
    {
      ObjectsAreApart();
      AddedIsValid(s);
      hide *;
      demandStreams := demandStreams + [s];
      ValidByStreams();
    }

    /** Valid(), for given streams. */
    ghost predicate AreValid(streams: seq<DemandStream>) {
      && (forall i :: 0 <= i < |streams| ==> streams[i].Valid())
      && (forall i :: 0 <= i < |streams| ==>
            uniformGenerator !in streams[i].Repr() && eventService !in streams[i].Repr() && this !in streams[i].Repr())
      && (forall i, j :: 0 <= i < j < |streams| ==> streams[i].Repr() !! streams[j].Repr())
    }

    lemma ValidByStreams()
      ensures Valid() <==> AreValid(demandStreams)
    {
      hide IsConfigured;
    }

    lemma AddedIsValid(s: DemandStream)
      requires Valid() && s.Valid()
      requires s.Repr() !! StreamObjects()
      requires uniformGenerator !in s.Repr() && eventService !in s.Repr() && this !in s.Repr()
      ensures AreValid(demandStreams + [s])
    {
      hide IsConfigured, DemandStream.Config, DemandStream.Valid, DemandStream.Repr;
      ObjectsAreApart();
      var streams := demandStreams + [s];
      forall i | 0 <= i < |demandStreams| ensures streams[i] == demandStreams[i] && streams[i].Repr() !! s.Repr() {
        assert demandStreams[i].Repr() <= StreamObjects();
      }
    }

    /** Look-up of the stream of a string. */
    method GetEventGenerator(key: string) returns (i: nat)
      requires key in KeyStrings(Configs())
      ensures i == Find(KeyStrings(Configs()), key)
    {
      ghost var keys := KeyStrings(Configs());
      i := 0;
      while ToString(demandStreams[i].lib, demandStreams[i].key) != key
        invariant i < |demandStreams|
        invariant key in keys[i..]
        invariant Find(keys, key) == i + Find(keys[i..], key)
        decreases |demandStreams| - i
      {
        assert keys[i] == ToString(demandStreams[i].lib, demandStreams[i].key);
        assert keys[i..][1..] == keys[i + 1..];
        assert |keys[i + 1..]| > 0;
        i := i + 1;
      }
      assert keys[i..][0] == keys[i];
    }

    /** DemandManager::generateNextRequest. */
    method GenerateNextRequest(key: string, m: Method, ghost r: Run) returns (q: BookingRequest, ghost ch: Choice)
      requires Valid() && Shows(r) && key in KeyStrings(Configs())
      requires CanGenerate(m, Configs(), r, Find(KeyStrings(Configs()), key))
      modifies StreamObjects(), eventService, uniformGenerator
      ensures var i := Find(KeyStrings(Configs()), key);
              && IsChoice(m, Configs(), r, i, ch)
              && q == GeneratedRequest(m, Configs(), r, i)
              && Shows(Generate(m, Configs(), r, i, ch))
    {
      hide IsWellFormed, NextOf, Enqueue, Reject, Passes, Valid, IsConfigured;
      hide DemandStreamModel.StillHavingRequestsToBeGenerated, IsStampFor, KeyStrings, Find, Configs;
      var i := GetEventGenerator(key);
      ghost var cs := Configs();
      ghost var moved;
      CanGenerateFacts(m, cs, r, i);
      q, moved := MoveStream(i, m, r);
      ghost var stamp := QueueOrReject(q, i, moved);
      ch := Choice(stamp);
    }

    /** The call on stream i, seen on the state of the machine. */
    method MoveStream(i: nat, m: Method, ghost r: Run) returns (q: BookingRequest, ghost moved: Run)
      requires Valid() && Shows(r) && CanGenerate(m, Configs(), r, i)
      modifies StreamObjects(), uniformGenerator
      ensures Valid() && Configs() == old(Configs()) && StreamObjects() == old(StreamObjects()) && Shows(moved)
      ensures i < |r.streams| && moved == Moved(r, i, NextOf(m, Configs(), r, i).0)
      ensures q == NextOf(m, Configs(), r, i).1
    {
      hide IsConfigured, IsReady, NextRequest, IsSystem;
      IsApart(r);
      q := GenerateOf(i, m);
      moved := Moved(r, i, NextOf(m, Configs(), r, i).0);
    }

    /** The request is queued if it precedes departure; otherwise the status loses one. */
    method QueueOrReject(q: BookingRequest, ghost i: nat, ghost moved: Run) returns (ghost stamp: int)
      requires Valid() && Shows(moved) && i < |moved.accounts|
      modifies eventService
      ensures Passes(q) ==> IsStampFor(moved.queue, q.requestDateTime, stamp)
      ensures Shows(if Passes(q) then Enqueue(moved, i, q, stamp) else Reject(moved, i, q))
      ensures forall j :: 0 <= j < |demandStreams| ==> demandStreams[j].Contents() == old(demandStreams[j].Contents())
    {
      hide IsConfigured, DateOf, TimeOfDay;
      var isBefore := q.departureDate > DateOf(q.requestDateTime)
        || (q.departureDate == DateOf(q.requestDateTime) && q.preferredDepartureTime > TimeOfDay(q.requestDateTime));
      if isBefore {
        stamp := eventService.AddEvent(Booking(q), q.requestDateTime);
      } else {
        stamp := 0;
        var current := eventService.actualTotalNumberOfRequests;
        current := current - 1;
        eventService.UpdateRequestStatus(current);
      }
    }

    /** The call on the stream itself: it moves that stream and the shared generator only. */
    method GenerateOf(i: nat, m: Method) returns (q: BookingRequest)
      requires Valid() && i < |demandStreams|
      requires IsReady(m, demandStreams[i].Config(), demandStreams[i].Contents())
      requires DemandStreamModel.StillHavingRequestsToBeGenerated(m, demandStreams[i].Contents())
      modifies StreamObjects(), uniformGenerator
      ensures (demandStreams[i].Contents(), q)
              == NextRequest(m, demandStreams[i].Config(), old(demandStreams[i].Contents()),
                             uniformGenerator.engine.uniform(old(uniformGenerator.position)))
      ensures uniformGenerator.position == old(uniformGenerator.position) + 1
      ensures forall j :: 0 <= j < |demandStreams| && j != i ==>
                demandStreams[j].Contents() == old(demandStreams[j].Contents())
    {
      hide NextRequest, IsReady, DemandStreamModel.StillHavingRequestsToBeGenerated, DemandStream.Config,
           DemandStream.Valid;
      assert demandStreams[i].Repr() <= StreamObjects();
      q := demandStreams[i].GenerateNextRequest(uniformGenerator, m);
      forall j | 0 <= j < |demandStreams| && j != i
        ensures demandStreams[j].Contents() == old(demandStreams[j].Contents())
      {
        assert demandStreams[j].Repr() !! demandStreams[i].Repr();
      }
    }

    /** DemandManager::stillHavingRequestsToBeGenerated; the progress of the stream is recorded under
        its string. */
    method StillHavingRequestsToBeGenerated(key: string, m: Method, progress: map<string, ProgressStatus>)
      returns (still: bool, progress': map<string, ProgressStatus>)
      requires key in KeyStrings(Configs())
      ensures var i := Find(KeyStrings(Configs()), key);
              var s := demandStreams[i].Contents();
              && still == DemandStreamModel.StillHavingRequestsToBeGenerated(m, s)
              && progress' == progress[key := ProgressStatus(s.numberOfRequestsGeneratedSoFar, Configs()[i].mean,
                                                             s.totalNumberOfRequestsToBeGenerated)]
    {
      var i := GetEventGenerator(key);
      var stream := demandStreams[i];
      var status := ProgressStatus(stream.randomGenerationContext.numberOfRequestsGeneratedSoFar,
                                   stream.meanNumberOfRequests, stream.totalNumberOfRequestsToBeGenerated);
      progress' := progress[key := status];
      still := stream.StillHavingRequestsToBeGenerated(m);
    }

    /** The first-request flag of the next stream. */
    method VisitStream(i: nat, ghost r: Run)
      requires Valid() && Shows(r) && i == r.next < |demandStreams|
      modifies demandStreams[i]
      ensures Shows(Visit(r))
    {
      demandStreams[i].SetBoolFirstDateTimeRequest(true);
      forall j | 0 <= j < |demandStreams| && j != i
        ensures demandStreams[j].Contents() == old(demandStreams[j].Contents())
      {
        assert demandStreams[j].Repr() !! demandStreams[i].Repr();
      }
    }

    /** The call of generateNextRequest with the string of stream i. */
    method GenerateByKeyOf(i: nat, m: Method, ghost r: Run) returns (ghost ch: Choice)
      requires Valid() && Shows(r) && CanGenerate(m, Configs(), r, i)
      modifies StreamObjects(), eventService, uniformGenerator
      ensures IsChoice(m, Configs(), r, i, ch) && Shows(Generate(m, Configs(), r, i, ch))
    {
      hide IsConfigured, IsReady, NextOf, Generate, IsChoice, IsSystem, Valid, Shows, Configs, StreamObjects;
      hide DemandStreamModel.StillHavingRequestsToBeGenerated;
      IsApart(r);
      FindsItself(m, Configs(), i);
      var key := ToString(demandStreams[i].lib, demandStreams[i].key);
      assert key == KeyStrings(Configs())[i];
      var q: BookingRequest;
      q, ch := GenerateNextRequest(key, m, r);
    }

    method StillHaving(i: nat, m: Method, ghost r: Run) returns (still: bool)
      requires Valid() && Shows(r) && i < |r.streams|
      ensures still == DemandStreamModel.StillHavingRequestsToBeGenerated(m, r.streams[i])
    {
      still := demandStreams[i].StillHavingRequestsToBeGenerated(m);
    }

    /** One turn of the loop of generateFirstRequests. */
    method SeedStream(i: nat, m: Method, ghost r: Run) returns (ghost ch: Choice)
      requires Valid() && Shows(r) && i == r.next < |demandStreams|
      requires IsWellFormed(m, Configs(), Visit(r))
      modifies StreamObjects(), eventService, uniformGenerator
      ensures CanGenerate(m, Configs(), Visit(r), i) ==>
                && IsChoice(m, Configs(), Visit(r), i, ch)
                && Shows(Generate(m, Configs(), Visit(r), i, ch))
      ensures !CanGenerate(m, Configs(), Visit(r), i) ==> Shows(Visit(r))
    {
      hide Visit, Generate, NextOf, IsWellFormed, IsChoice, DemandStreamModel.StillHavingRequestsToBeGenerated;
      hide Valid, Shows, StreamObjects, Configs;
      StreamsAreApart(i);
      IsApart(r);
      ObjectsAreAllocated();
      VisitStream(i, r);
      var still := StillHaving(i, m, Visit(r));
      if still {
        ch := GenerateByKeyOf(i, m, Visit(r));
      } else {
        ch := Choice(0);
      }
    }

    method TotalOf(i: nat, ghost r: Run) returns (number: int)
      requires Valid() && Shows(r) && i < |demandStreams|
      ensures i < |r.streams| && number == Totals(r.streams)[i]
    {
      number := demandStreams[i].totalNumberOfRequestsToBeGenerated;
    }

    /** The status is overwritten with the count. */
    method UpdateStatus(count: int, ghost r: Run)
      requires Valid() && Shows(r) && count == Sum(Totals(r.streams))
      modifies eventService
      ensures Shows(StatusUpdate(r))
    {
      eventService.UpdateRequestStatus(count);
    }

    /** TRADEMGEN_Service::popEvent. */
    method PopEvent(ghost cs: seq<Configuration>, ghost r: Run) returns (e: Event, ghost stamp: int)
      requires Valid() && Shows(r) && r.queue != map[]
      modifies eventService
      ensures IsEarliest(r.queue, stamp) && e == r.queue[stamp]
      ensures |r.accounts| == |cs| && IsBookingAt(cs, r.queue, stamp) ==> Shows(Pop(cs, r, stamp))
    {
      hide StreamAt;
      stamp, e := eventService.PopEvent();
    }

    /** The total that stream i draws when the shared generator stands at a position. */
    ghost function DrawnTotal(i: nat, position: nat): int
      reads this
      requires i < |demandStreams|
    {
      RequestsToBeGenerated(uniformGenerator.engine.normal(
        position, demandStreams[i].meanNumberOfRequests, demandStreams[i].stdDevNumberOfRequests))
    }

    /** The first i streams have been reset, each with the total that it drew from a position of the
        shared generator on; the others are as before. */
    ghost predicate AreReset(before: seq<State>, totals: seq<int>, i: nat, position: nat)
      reads this, StreamObjects()
    {
      && |before| == |demandStreams| && i == |totals| <= |demandStreams|
      && (forall j :: 0 <= j < i ==> totals[j] == DrawnTotal(j, position + j))
      && (forall j :: 0 <= j < |demandStreams| ==>
            assert demandStreams[j].Repr() <= StreamObjects();
            demandStreams[j].Contents() == if j < i then DemandStreamModel.Reset(before[j], totals[j]) else before[j])
    }

    /** DemandManager::reset: every stream draws a new total from the shared generator, and the queue
        is emptied. */
    method Reset(ghost before: seq<State>) returns (ghost totals: seq<int>)
      requires Valid() && AreReset(before, [], 0, uniformGenerator.position)
      modifies StreamObjects(), eventService, uniformGenerator
      ensures AreReset(before, totals, |demandStreams|, old(uniformGenerator.position))
      ensures uniformGenerator.position == old(uniformGenerator.position) + |demandStreams|
      ensures eventService.events == map[]
      ensures eventService.actualTotalNumberOfRequests == old(eventService.actualTotalNumberOfRequests)
    {
      totals := ResetStreams(before);
      EmptyQueue(before, totals, old(uniformGenerator.position));
    }

    method EmptyQueue(ghost before: seq<State>, ghost totals: seq<int>, ghost position: nat)
      requires Valid() && AreReset(before, totals, |demandStreams|, position)
      modifies eventService
      ensures AreReset(before, totals, |demandStreams|, position) && eventService.events == map[]
      ensures eventService.actualTotalNumberOfRequests == old(eventService.actualTotalNumberOfRequests)
    {
      hide IsConfigured, DemandStreamModel.Reset, DrawnTotal;
      eventService.ResetQueue();
    }

    method ResetStreams(ghost before: seq<State>) returns (ghost totals: seq<int>)
      requires Valid() && AreReset(before, [], 0, uniformGenerator.position)
      modifies StreamObjects(), uniformGenerator
      ensures AreReset(before, totals, |demandStreams|, old(uniformGenerator.position))
      ensures uniformGenerator.position == old(uniformGenerator.position) + |demandStreams|
      ensures unchanged(eventService)
    {
      hide *;
      ghost var objects, position := StreamObjects(), uniformGenerator.position;
      ObjectsAreApart();
      totals := [];
      var i: nat := 0;
      while i < |demandStreams|
        invariant i <= |demandStreams| && Valid() && StreamObjects() == objects
        invariant uniformGenerator.position == position + i
        invariant AreReset(before, totals, i, position)
      {
        ghost var total := ResetStream(i, before, totals, position);
        totals := totals + [total];
        i := i + 1;
      }
    }

    method ResetStream(i: nat, ghost before: seq<State>, ghost totals: seq<int>, ghost position: nat)
      returns (ghost total: int)
      requires Valid() && i < |demandStreams| && AreReset(before, totals, i, position)
      requires uniformGenerator.position == position + i
      modifies demandStreams[i].Repr(), uniformGenerator
      ensures uniformGenerator.position == position + i + 1
      ensures AreReset(before, totals + [total], i + 1, position)
    {
      hide IsConfigured, DemandStreamModel.Reset, RequestsToBeGenerated;
      total := DrawnTotal(i, uniformGenerator.position);
      demandStreams[i].Reset(uniformGenerator);
      forall j | 0 <= j < |demandStreams| && j != i
        ensures demandStreams[j].Contents() == old(demandStreams[j].Contents())
      {
        assert demandStreams[j].Repr() !! demandStreams[i].Repr();
      }
    }
  }
}

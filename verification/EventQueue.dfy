/** The event queue and the progress statuses, which the SEvMgr library keeps for TraDemGen.  The
    contracts here are what TraDemGen's own comments and uses say of that library: stamps are
    unique, a colliding stamp is altered to a free one, and the earliest event is popped. */
module EventQueue {
  import opened DemandStreamModel
  import opened Options

  datatype Cancellation = Cancellation(
    segmentPath: seq<string>,
    classIDs: seq<int>,
    partySize: int,
    dateTime: int)

  datatype Event = Booking(request: BookingRequest) | Cancelled(cancellation: Cancellation)

  /** Events by their date-time stamps. */
  type Queue = map<int, Event>

  /** The stamp that an event of date-time time may get: a free one, and its own if that is free. */
  ghost predicate IsStampFor(q: Queue, time: int, stamp: int) {
    stamp !in q && (time !in q ==> stamp == time)
  }

  ghost predicate IsEarliest(q: Queue, stamp: int) {
    stamp in q && forall t :: t in q ==> stamp <= t
  }

  /** Whatever stamps collide, an insertion loses no event and leaves stamps unique: the queue
      grows by exactly one event, under a stamp of its own. */
  lemma InsertionLosesNothing(q: Queue, time: int, stamp: int, e: Event)
    requires IsStampFor(q, time, stamp)
    ensures |q[stamp := e]| == |q| + 1
    ensures q[stamp := e] - {stamp} == q
    ensures forall t :: t in q ==> t in q[stamp := e] && q[stamp := e][t] == q[t]
  {
    assert q[stamp := e] - {stamp} == q;
    assert q[stamp := e].Keys == q.Keys + {stamp};
  }

  lemma RemovalCounts(q: Queue, stamp: int)
    requires stamp in q
    ensures |q - {stamp}| == |q| - 1
  {
    assert (q - {stamp}).Keys == q.Keys - {stamp};
  }

  lemma EmptyOrInhabited(s: set<int>)
    ensures s == {} || exists t :: t in s
  {
    if !exists t :: t in s {
      assert s == {};
    }
  }

  method SomeStamp(stamps: set<int>) returns (stamp: int)
    requires stamps != {}
    ensures stamp in stamps
  {
    EmptyOrInhabited(stamps);
    stamp :| stamp in stamps;
  }

  class EventService {
    var events: Queue
    var expectedTotalNumberOfRequests: real
    var actualTotalNumberOfRequests: int
    var actualTotalNumberOfCancellations: Option<int>

    constructor ()
      ensures events == map[] && expectedTotalNumberOfRequests == 0.0
      ensures actualTotalNumberOfCancellations == None
    {
      events, expectedTotalNumberOfRequests, actualTotalNumberOfRequests := map[], 0.0, 0;
      actualTotalNumberOfCancellations := None;
    }

    /** Tries the next millisecond until a stamp is free. */
    method AddEvent(e: Event, time: int) returns (stamp: int)
      modifies this`events
      ensures IsStampFor(old(events), time, stamp) && events == old(events)[stamp := e]
    {
      stamp := time;
      while stamp in events
        invariant time <= stamp && (time !in events ==> stamp == time)
        decreases set t | t in events && stamp <= t
      {
        ghost var taken := set t | t in events && stamp <= t;
        ghost var rest := set t | t in events && stamp + 1 <= t;
        assert rest < taken by { assert stamp in taken && stamp !in rest; }
        stamp := stamp + 1;
      }
      events := events[stamp := e];
    }

    method IsQueueDone() returns (done: bool)
      ensures done <==> events == map[]
    {
      done := |events| == 0;
    }

    method PopEvent() returns (stamp: int, e: Event)
      requires events != map[]
      modifies this`events
      ensures IsEarliest(old(events), stamp) && e == old(events)[stamp]
      ensures events == old(events) - {stamp}
    {
      var queue := events;
      stamp := SomeStamp(queue.Keys);
      var left := queue.Keys;
      while left != {}
        invariant left <= queue.Keys && stamp in queue
        invariant forall t :: t in queue && t !in left ==> stamp <= t
        decreases left
      {
        var t := SomeStamp(left);
        if t < stamp { stamp := t; }
        left := left - {t};
      }
      e := queue[stamp];
      events := queue - {stamp};
    }

    /** Extends the expected total of booking requests. */
    method AddRequestStatus(expected: real)
      modifies this`expectedTotalNumberOfRequests
      ensures expectedTotalNumberOfRequests == old(expectedTotalNumberOfRequests) + expected
    {
      expectedTotalNumberOfRequests := expectedTotalNumberOfRequests + expected;
    }

    method UpdateRequestStatus(actual: int)
      modifies this`actualTotalNumberOfRequests
      ensures actualTotalNumberOfRequests == actual
    {
      actualTotalNumberOfRequests := actual;
    }

    /** A status that does not exist yet is created with the number as its actual total. */
    method AddCancellationStatus(number: int)
      requires actualTotalNumberOfCancellations.None?
      modifies this`actualTotalNumberOfCancellations
      ensures actualTotalNumberOfCancellations == Some(number)
    {
      actualTotalNumberOfCancellations := Some(number);
    }

    method UpdateCancellationStatus(actual: int)
      requires actualTotalNumberOfCancellations.Some?
      modifies this`actualTotalNumberOfCancellations
      ensures actualTotalNumberOfCancellations == Some(actual)
    {
      actualTotalNumberOfCancellations := Some(actual);
    }

    method ResetQueue()
      modifies this`events
      ensures events == map[]
    {
      events := map[];
    }
  }
}

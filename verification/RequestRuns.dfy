/** Successive calls of DemandStream::generateNextRequest on one stream: the requests carry the
    date-times of StreamRuns, whatever else is drawn between them. */
module RequestRuns {
  import opened CategoricalAttributeLite
  import opened ContinuousAttributeLite
  import opened DemandStreamKey
  import opened DemandStreamModel
  import opened DriverModel
  import opened PoissonProcess
  import opened RandomGeneration
  import opened RealArithmetic
  import opened StreamRuns

  /** A call draws the date-time from where the stream stands, and moves the engine of the demand
      characteristics besides. */
  lemma RequestIsTimed(m: Method, c: Configuration, s: State, shared: real)
    requires IsReady(m, c, s) && StillHavingRequestsToBeGenerated(m, s)
    ensures IsReady(m, c, AfterPointOfSale(s)) && StillHavingRequestsToBeGenerated(m, AfterPointOfSale(s))
    ensures var (s', q) := NextRequest(m, c, s, shared);
            var (next, t) := NextTime(m, c, AfterPointOfSale(s));
            && IsReady(m, c, s') && IsReady(m, c, next)
            && s' == next.(characteristicsPosition := next.characteristicsPosition + 8)
            && q.requestDateTime == t
            && q.wtp == WTP(c, t, shared)
            && q.departureDate == c.key.date
  {
    hide NextTime, WTP, IsConfigured, IsPoissonPattern;
    NextTimeOutcome(m, c, AfterPointOfSale(s));
  }

  /** The state and the requests after the calls that take these draws of the shared generator; a
      stream that has no more requests is not called again. */
  function Calls(m: Method, c: Configuration, s: State, shared: seq<real>): (State, seq<BookingRequest>)
    requires IsReady(m, c, s)
    decreases |shared|
  {
    if shared == [] || !StillHavingRequestsToBeGenerated(m, s) then (s, [])
    else
      RequestIsTimed(m, c, s, shared[0]);
      var (next, q) := NextRequest(m, c, s, shared[0]);
      var (end, rest) := Calls(m, c, next, shared[1..]);
      (end, [q] + rest)
  }

  lemma {:induction false} CallsStayReady(m: Method, c: Configuration, s: State, shared: seq<real>)
    requires IsReady(m, c, s)
    ensures IsReady(m, c, Calls(m, c, s, shared).0)
    ensures |Calls(m, c, s, shared).1| <= |shared|
    decreases |shared|
  {
    hide NextRequest, IsConfigured, Supports, IsConsistent;
    if shared != [] && StillHavingRequestsToBeGenerated(m, s) {
      RequestIsTimed(m, c, s, shared[0]);
      CallsStayReady(m, c, NextRequest(m, c, s, shared[0]).0, shared[1..]);
    }
  }

  /** One more call goes on from where the calls before it ended. */
  lemma {:induction false} CallsGoOn(m: Method, c: Configuration, s: State, shared: seq<real>, last: real)
    requires IsReady(m, c, s)
    ensures IsReady(m, c, Calls(m, c, s, shared).0)
    ensures var (end, requests) := Calls(m, c, s, shared);
            Calls(m, c, s, shared + [last])
            == if StillHavingRequestsToBeGenerated(m, end)
               then (NextRequest(m, c, end, last).0, requests + [NextRequest(m, c, end, last).1])
               else (end, requests)
    decreases |shared|
  {
    hide NextRequest, IsConfigured, Supports, IsConsistent, StillHavingRequestsToBeGenerated;
    CallsStayReady(m, c, s, shared);
    if StillHavingRequestsToBeGenerated(m, s) {
      if shared == [] {
        RequestIsTimed(m, c, s, last);
        var (next, q) := NextRequest(m, c, s, last);
        assert (shared + [last])[1..] == [];
        assert Calls(m, c, next, []) == (next, []) && [q] + [] == [] + [q];
      } else {
        RequestIsTimed(m, c, s, shared[0]);
        var (next, q) := NextRequest(m, c, s, shared[0]);
        CallsGoOn(m, c, next, shared[1..], last);
        assert (shared + [last])[1..] == shared[1..] + [last];
        var (end, rest) := Calls(m, c, next, shared[1..]);
        if StillHavingRequestsToBeGenerated(m, end) {
          assert [q] + (rest + [NextRequest(m, c, end, last).1]) == [q] + rest + [NextRequest(m, c, end, last).1];
        }
      }
    }
  }

  function DateTimes(requests: seq<BookingRequest>): seq<int> {
    seq(|requests|, i requires 0 <= i < |requests| => requests[i].requestDateTime)
  }

  /** The place of the characteristics' engine has no part in the date-times. */
  lemma CharacteristicsDoNotMatter(m: Method, c: Configuration, s: State, position: nat, k: nat)
    requires IsReady(m, c, s)
    ensures IsReady(m, c, s.(characteristicsPosition := position))
    ensures Stamps(m, c, s.(characteristicsPosition := position), k) == Stamps(m, c, s, k)
  {
    hide IsConfigured, IsPoissonPattern;
    var s' := s.(characteristicsPosition := position);
    assert IsReady(m, c, s') && SameCourse(m, c, s, c, s');
    hide IsReady, SameCourse;
    CoursesAgree(m, c, s, c, s', k);
  }

  lemma FirstStamp(m: Method, c: Configuration, s: State, k: nat)
    requires IsReady(m, c, s) && StillHavingRequestsToBeGenerated(m, s) && k > 0
    ensures IsReady(m, c, NextTime(m, c, s).0)
    ensures Stamps(m, c, s, k) == [NextTime(m, c, s).1] + Stamps(m, c, NextTime(m, c, s).0, k - 1)
  {
    hide NextTime, IsConfigured, Supports, IsConsistent;
    NextTimeOutcome(m, c, s);
  }

  /** The requests of a stream carry its date-times: those depend neither on the draws of the
      demand characteristics nor on those of the shared generator. */
  lemma {:induction false} RequestsCarryStamps(m: Method, c: Configuration, s: State, shared: seq<real>)
    requires IsReady(m, c, s)
    ensures DateTimes(Calls(m, c, s, shared).1) == Stamps(m, c, s, |shared|)
    decreases |shared|
  {
    hide NextRequest, IsConfigured, Supports, IsConsistent, NextTime, Stamps, AfterPointOfSale;
    if shared != [] && StillHavingRequestsToBeGenerated(m, s) {
      var k, x := |shared| - 1, shared[0];
      RequestIsTimed(m, c, s, x);
      var (next, q) := NextRequest(m, c, s, x);
      var timed := NextTime(m, c, AfterPointOfSale(s)).0;
      RequestsCarryStamps(m, c, next, shared[1..]);
      CharacteristicsDoNotMatter(m, c, timed, next.characteristicsPosition, k);
      FirstStamp(m, c, AfterPointOfSale(s), k + 1);
      AfterPointOfSaleStamps(m, c, s, k + 1);
      var rest := Calls(m, c, next, shared[1..]).1;
      assert Calls(m, c, s, shared).1 == [q] + rest;
      assert DateTimes([q] + rest) == [q.requestDateTime] + DateTimes(rest);
    } else {
      NoStamps(m, c, s, |shared|);
    }
  }

  lemma AfterPointOfSaleStamps(m: Method, c: Configuration, s: State, k: nat)
    requires IsReady(m, c, s)
    ensures IsReady(m, c, AfterPointOfSale(s)) && Stamps(m, c, AfterPointOfSale(s), k) == Stamps(m, c, s, k)
  {
    hide IsReady, Stamps;
    CharacteristicsDoNotMatter(m, c, s, s.characteristicsPosition + 1, k);
  }

  lemma NoStamps(m: Method, c: Configuration, s: State, k: nat)
    requires IsReady(m, c, s) && (k == 0 || !StillHavingRequestsToBeGenerated(m, s))
    ensures Stamps(m, c, s, k) == []
  {
  }

  /** Fewer calls give the first of the date-times. */
  lemma {:induction false} StampsArePrefix(m: Method, c: Configuration, s: State, j: nat, k: nat)
    requires IsReady(m, c, s) && j <= k
    ensures Stamps(m, c, s, j) <= Stamps(m, c, s, k)
    decreases j
  {
    hide NextTime, IsConfigured, Supports, IsConsistent;
    if j > 0 && StillHavingRequestsToBeGenerated(m, s) {
      NextTimeOutcome(m, c, s);
      StampsArePrefix(m, c, NextTime(m, c, s).0, j - 1, k - 1);
    }
  }

  /** Over a whole run of a stream the date-times of its requests never decrease. */
  lemma RequestsNeverDecrease(m: Method, c: Configuration, s: State, shared: seq<real>)
    requires IsReady(m, c, s)
    ensures NeverDecreases(DateTimes(Calls(m, c, s, shared).1))
  {
    hide IsReady, Stamps, Calls;
    RequestsCarryStamps(m, c, s, shared);
    StampsNeverDecrease(m, c, s, |shared|);
  }

  /** Replay of requests: after a reset a stream gives requests at the date-times of a fresh stream
      that reads the date-time draws still to come, whatever the previous run left, and whatever the
      demand characteristics and the shared generator give in either run. */
  lemma ResetReplaysRequests(m: Method, c: Configuration, s: State, total: int, characteristics: Engine,
                             shared: seq<real>, shared': seq<real>)
    requires IsReady(m, c, s) && IsEngine(characteristics) && |shared| == |shared'|
    ensures var c' := Rewound(c, s.dateTimePosition, characteristics);
            && IsReady(m, c, Reset(s, total)) && IsReady(m, c', Fresh(total))
            && DateTimes(Calls(m, c, Reset(s, total), shared).1) == DateTimes(Calls(m, c', Fresh(total), shared').1)
  {
    hide IsReady, Stamps, Calls, Rewound, Reset, Fresh, IsEngine;
    var c' := Rewound(c, s.dateTimePosition, characteristics);
    ResetReplaysFreshStream(m, c, s, total, characteristics, |shared|);
    RequestsCarryStamps(m, c, Reset(s, total), shared);
    RequestsCarryStamps(m, c', Fresh(total), shared');
  }

  // ---------------------------------------------------------------- Replay of whole requests

  /** The streams are set up alike, stand alike, and read the same draws from there on. */
  ghost predicate SameStream(m: Method, c: Configuration, s: State, c': Configuration, s': State) {
    && SameCourse(m, c, s, c', s')
    && c' == c.(dateTimeEngine := c'.dateTimeEngine, characteristicsEngine := c'.characteristicsEngine)
    && SameTail(c.characteristicsEngine, s.characteristicsPosition,
                c'.characteristicsEngine, s'.characteristicsPosition)
  }

  /** Two engines give the same uniform draws from two positions on. */
  ghost predicate SameTail(e: Engine, n: nat, e': Engine, n': nat) {
    forall i: nat :: DrawAfter(e, n, i) == DrawAfter(e', n', i)
  }

  lemma TailGoesOn(e: Engine, n: nat, e': Engine, n': nat, k: nat)
    requires SameTail(e, n, e', n')
    ensures SameTail(e, n + k, e', n' + k)
    ensures e.uniform(n + k) == e'.uniform(n' + k)
  {
    var m, m' := n + k, n' + k;
    forall i: nat ensures DrawAfter(e, m, i) == DrawAfter(e', m', i) {
      assert DrawAfter(e, n, k + i) == DrawAfter(e', n', k + i);
    }
    assert DrawAfter(e, n, k) == DrawAfter(e', n', k);
  }

  /** Drawing a date-time leaves the engine of the characteristics alone. */
  lemma TimesKeepCharacteristics(m: Method, c: Configuration, s: State)
    requires IsReady(m, c, s) && StillHavingRequestsToBeGenerated(m, s)
    ensures NextTime(m, c, s).0.characteristicsPosition == s.characteristicsPosition
  {
    hide NextPoissonTime, IsConfigured, IsPoissonPattern, Quantile;
    if m.PoissonProcess? { NextPoissonTimeOutcome(c, s); }
  }

  lemma DescriptionsAgree(c: Configuration, s: State, c': Configuration, s': State, pointOfSale: real, time: int,
                          shared: real)
    requires IsConfigured(c) && IsConfigured(c') && 0.0 <= pointOfSale < 1.0
    requires c' == c.(dateTimeEngine := c'.dateTimeEngine, characteristicsEngine := c'.characteristicsEngine)
    requires SameTail(c.characteristicsEngine, s.characteristicsPosition,
                      c'.characteristicsEngine, s'.characteristicsPosition)
    ensures Describe(c, s, pointOfSale, time, shared).1 == Describe(c', s', pointOfSale, time, shared).1
  {
    hide SameTail, IsEngine, IsLibrary, IsDistribution, CoversDraws, Chosen, Quantile, Truncate, ToString,
         Frat5Coefficient, WtpFormula;
    var e, n, e', n' := c.characteristicsEngine, s.characteristicsPosition, c'.characteristicsEngine,
                        s'.characteristicsPosition;
    TailGoesOn(e, n, e', n', 0);
    TailGoesOn(e, n, e', n', 1);
    TailGoesOn(e, n, e', n', 2);
    TailGoesOn(e, n, e', n', 3);
    TailGoesOn(e, n, e', n', 4);
    TailGoesOn(e, n, e', n', 5);
    TailGoesOn(e, n, e', n', 6);
    TailGoesOn(e, n, e', n', 7);
  }

  lemma RequestIsDescribed(m: Method, c: Configuration, s: State, shared: real)
    requires IsReady(m, c, s) && StillHavingRequestsToBeGenerated(m, s)
    ensures IsReady(m, c, AfterPointOfSale(s)) && StillHavingRequestsToBeGenerated(m, AfterPointOfSale(s))
    ensures 0.0 <= c.characteristicsEngine.uniform(s.characteristicsPosition) < 1.0
    ensures var (next, t) := NextTime(m, c, AfterPointOfSale(s));
            NextRequest(m, c, s, shared)
            == Describe(c, next, c.characteristicsEngine.uniform(s.characteristicsPosition), t, shared)
  {
    RequestIsTimed(m, c, s, shared);
    UniformDraw(c, s.characteristicsPosition);
    hide NextTime, Describe, IsConfigured, Supports, IsConsistent;
  }

  lemma CourseIgnoresCharacteristics(m: Method, c: Configuration, s: State, c': Configuration, s': State, n: nat,
                                     n': nat)
    requires SameCourse(m, c, s, c', s')
    ensures SameCourse(m, c, s.(characteristicsPosition := n), c', s'.(characteristicsPosition := n'))
  {
  }

  lemma RequestsAgree(m: Method, c: Configuration, s: State, c': Configuration, s': State, shared: real)
    requires IsReady(m, c, s) && IsReady(m, c', s') && SameStream(m, c, s, c', s')
    requires StillHavingRequestsToBeGenerated(m, s) && StillHavingRequestsToBeGenerated(m, s')
    ensures NextRequest(m, c, s, shared).1 == NextRequest(m, c', s', shared).1
    ensures SameStream(m, c, NextRequest(m, c, s, shared).0, c', NextRequest(m, c', s', shared).0)
  {
    hide NextTime, NextRequest, SameTail, SameCourse, IsConfigured, Supports, IsConsistent, Describe,
         StillHavingRequestsToBeGenerated;
    RequestIsTimed(m, c, s, shared);
    RequestIsTimed(m, c', s', shared);
    RequestIsDescribed(m, c, s, shared);
    RequestIsDescribed(m, c', s', shared);
    var e, n, e', n' := c.characteristicsEngine, s.characteristicsPosition, c'.characteristicsEngine,
                        s'.characteristicsPosition;
    TailGoesOn(e, n, e', n', 0);
    TailGoesOn(e, n, e', n', 1);
    TailGoesOn(e, n, e', n', 9);
    var p, p' := AfterPointOfSale(s), AfterPointOfSale(s');
    CourseIgnoresCharacteristics(m, c, s, c', s', n + 1, n' + 1);
    TimesAgree(m, c, p, c', p');
    TimesKeepCharacteristics(m, c, p);
    TimesKeepCharacteristics(m, c', p');
    var (next, t) := NextTime(m, c, p);
    var next' := NextTime(m, c', p').0;
    DescriptionsAgree(c, next, c', next', e.uniform(n), t, shared);
    CourseIgnoresCharacteristics(m, c, next, c', next', n + 9, n' + 9);
  }

  lemma UniformDraw(c: Configuration, n: nat)
    requires IsConfigured(c)
    ensures 0.0 <= c.characteristicsEngine.uniform(n) < 1.0
  {
  }

  lemma SameStreamsGoOnAlike(m: Method, c: Configuration, s: State, c': Configuration, s': State)
    requires SameStream(m, c, s, c', s')
    ensures StillHavingRequestsToBeGenerated(m, s) == StillHavingRequestsToBeGenerated(m, s')
  {
    CoursesGoOnAlike(m, c, s, c', s');
  }

  lemma {:induction false} CallsAgree(m: Method, c: Configuration, s: State, c': Configuration, s': State,
                                      shared: seq<real>)
    requires IsReady(m, c, s) && IsReady(m, c', s') && SameStream(m, c, s, c', s')
    ensures Calls(m, c, s, shared).1 == Calls(m, c', s', shared).1
    ensures SameStream(m, c, Calls(m, c, s, shared).0, c', Calls(m, c', s', shared).0)
    decreases |shared|
  {
    hide NextRequest, SameStream, IsConfigured, Supports, IsConsistent, StillHavingRequestsToBeGenerated;
    SameStreamsGoOnAlike(m, c, s, c', s');
    if shared != [] && StillHavingRequestsToBeGenerated(m, s) {
      RequestIsTimed(m, c, s, shared[0]);
      RequestIsTimed(m, c', s', shared[0]);
      RequestsAgree(m, c, s, c', s', shared[0]);
      CallsAgree(m, c, NextRequest(m, c, s, shared[0]).0, c', NextRequest(m, c', s', shared[0]).0, shared[1..]);
    }
  }

  /** The configuration of a stream that reads all its draws from where the state stands. */
  function AllRewound(c: Configuration, s: State): Configuration {
    Rewound(c, s.dateTimePosition, From(c.characteristicsEngine, s.characteristicsPosition))
  }

  /** After a reset a stream is the fresh stream on the draws that are still to come. */
  lemma ResetIsFreshStream(m: Method, c: Configuration, s: State, total: int)
    requires IsReady(m, c, s)
    ensures IsReady(m, c, Reset(s, total)) && IsReady(m, AllRewound(c, s), Fresh(total))
    ensures SameStream(m, c, Reset(s, total), AllRewound(c, s), Fresh(total))
  {
    hide IsLibrary, IsDistribution, AreCovered, IsPoissonPattern, SameCourse;
    ResetFollowsFreshCourse(m, c, s, total, From(c.characteristicsEngine, s.characteristicsPosition));
  }

  // ---------------------------------------------------------------- Willingness to pay

  /** Every request is priced at its own date-time with its own draw of the shared generator. */
  lemma {:induction false} RequestsArePriced(m: Method, c: Configuration, s: State, shared: seq<real>, i: nat)
    requires IsReady(m, c, s) && i < |Calls(m, c, s, shared).1|
    ensures i < |shared|
    ensures var q := Calls(m, c, s, shared).1[i]; q.wtp == WTP(c, q.requestDateTime, shared[i])
    decreases |shared|
  {
    hide NextRequest, WTP, NextTime, AfterPointOfSale;
    RequestIsTimed(m, c, s, shared[0]);
    if i > 0 {
      RequestsArePriced(m, c, NextRequest(m, c, s, shared[0]).0, shared[1..], i - 1);
    }
  }

  /** Of two requests of a stream with equal draws the later one pays no less, and neither pays
      less than a non-negative minimum. */
  lemma LaterRequestsPayNoLess(m: Method, c: Configuration, s: State, shared: seq<real>, i: nat, j: nat)
    requires IsReady(m, c, s) && 0.0 <= c.minWTP && i < j < |Calls(m, c, s, shared).1| <= |shared|
    requires shared[i] == shared[j] && 0.0 < shared[i] < 1.0
    ensures var requests := Calls(m, c, s, shared).1;
            c.minWTP <= requests[i].wtp <= requests[j].wtp
  {
    RequestsArePriced(m, c, s, shared, i);
    RequestsArePriced(m, c, s, shared, j);
    RequestsNeverDecrease(m, c, s, shared);
    hide Calls, WTP, Frat5Coefficient, IsPoissonPattern, IsDistribution, IsLibrary, IsEngine;
    var requests := Calls(m, c, s, shared).1;
    assert DateTimes(requests)[i] <= DateTimes(requests)[j];
    WtpNeverFalls(c, requests[i].requestDateTime, requests[j].requestDateTime, shared[i]);
  }

  // ---------------------------------------------------------------- Requests that precede departure

  /** The next k requests of the stream all precede departure.  Whether they do does not depend on
      the shared generator, so any draw will do here. */
  ghost predicate NextPass(m: Method, c: Configuration, s: State, k: nat)
    requires IsReady(m, c, s)
    decreases k
  {
    if k == 0 || !StillHavingRequestsToBeGenerated(m, s) then true
    else
      RequestIsTimed(m, c, s, 0.0);
      var (next, q) := NextRequest(m, c, s, 0.0);
      Passes(q) && NextPass(m, c, next, k - 1)
  }

  ghost predicate AllPass(requests: seq<BookingRequest>) {
    forall i :: 0 <= i < |requests| ==> Passes(requests[i])
  }

  lemma SharedDrawDoesNotMatter(m: Method, c: Configuration, s: State, shared: real, shared': real)
    requires IsReady(m, c, s) && StillHavingRequestsToBeGenerated(m, s)
    ensures NextRequest(m, c, s, shared).0 == NextRequest(m, c, s, shared').0
    ensures Passes(NextRequest(m, c, s, shared).1) == Passes(NextRequest(m, c, s, shared').1)
  {
    hide NextTime, WTP, IsConfigured, IsPoissonPattern;
  }

  lemma NonePass()
    ensures AllPass([])
  {
  }

  lemma AllPassFirst(q: BookingRequest, rest: seq<BookingRequest>)
    ensures AllPass([q] + rest) <==> Passes(q) && AllPass(rest)
  {
    hide Passes;
    assert ([q] + rest)[0] == q;
    assert forall i :: 0 <= i < |rest| ==> ([q] + rest)[i + 1] == rest[i];
  }

  lemma {:induction false} CallsPass(m: Method, c: Configuration, s: State, shared: seq<real>)
    requires IsReady(m, c, s)
    ensures AllPass(Calls(m, c, s, shared).1) <==> NextPass(m, c, s, |shared|)
    decreases |shared|
  {
    hide NextRequest, IsConfigured, Supports, IsConsistent, StillHavingRequestsToBeGenerated, Passes, AllPass;
    NonePass();
    if shared != [] && StillHavingRequestsToBeGenerated(m, s) {
      RequestIsTimed(m, c, s, shared[0]);
      SharedDrawDoesNotMatter(m, c, s, shared[0], 0.0);
      var (next, q) := NextRequest(m, c, s, shared[0]);
      CallsPass(m, c, next, shared[1..]);
      var rest := Calls(m, c, next, shared[1..]).1;
      assert Calls(m, c, s, shared).1 == [q] + rest;
      AllPassFirst(q, rest);
    }
  }

  lemma {:induction false} NextPassFewer(m: Method, c: Configuration, s: State, j: nat, k: nat)
    requires IsReady(m, c, s) && j <= k && NextPass(m, c, s, k)
    ensures NextPass(m, c, s, j)
    decreases j
  {
    hide NextRequest, IsConfigured, Supports, IsConsistent, Passes;
    if j > 0 && StillHavingRequestsToBeGenerated(m, s) {
      RequestIsTimed(m, c, s, 0.0);
      NextPassFewer(m, c, NextRequest(m, c, s, 0.0).0, j - 1, k - 1);
    }
  }
}

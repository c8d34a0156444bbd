/**
 * Properties that span several operations: what every route preserves about
 * existing requests, the single-winner accept race, the deferred
 * ARRIVED -> WORK_STARTED step, and what the status routes do NOT enforce.
 */
module Lifecycle {
  import opened Wrappers
  import opened Models
  import opened Bus
  import opened Db
  import opened Matching
  import opened Requests
  import P = ProviderRoutes
  import A = Admin

  /** A route that only replaces one request's status keeps every request's snapshot. */
  lemma WithStatusEvolves(s: Store, i: nat, st: Status)
    requires i < |s.requests|
    ensures RequestsEvolve(s, WithStatus(s, i, st))
  {
  }

  /** Creation appends and keeps every earlier request; the new one starts unassigned in REQUEST_SENT. */
  lemma CreatePreserves(
    s: Store, caller: User, newId: RequestId, now: int, dist: Distance,
    category: Option<string>, description: Option<string>, lng: Option<int>, lat: Option<int>)
    requires AssignmentConsistent(s)
    ensures var rep := Create(s, caller, newId, now, dist, category, description, lng, lat);
            RequestsEvolve(s, rep.store) && AssignmentConsistent(rep.store)
  {
    var rep := Create(s, caller, newId, now, dist, category, description, lng, lat);
    if rep.outcome.Ok? {
      AppendEvolves(s, rep.outcome.value.request);
    }
  }

  /** Appending an unassigned REQUEST_SENT request keeps every existing one and the invariant. */
  lemma AppendEvolves(s: Store, req: ServiceRequest)
    requires AssignmentConsistent(s) && req.status == RequestSent && req.assignedProviderId.None?
    ensures RequestsEvolve(s, s.(requests := s.requests + [req]))
    ensures AssignmentConsistent(s.(requests := s.requests + [req]))
  {
    var rs := s.requests + [req];
    forall i | 0 <= i < |rs| ensures AssignedIffPastSent(rs[i]) {
      if i < |s.requests| {
        assert rs[i] == s.requests[i];
      }
    }
  }

  /** Accept writes the assignment together with ACCEPTED and never rewrites an existing one. */
  lemma AcceptPreserves(s: Store, caller: User, id: RequestId)
    requires AssignmentConsistent(s)
    ensures var rep := Accept(s, caller, id);
            RequestsEvolve(s, rep.store) && AssignmentConsistent(rep.store)
  {
  }

  /** The status route keeps the snapshot and the assignment. */
  lemma UpdateStatusPreserves(s: Store, id: RequestId, status: string)
    requires AssignmentConsistent(s)
    ensures var rep := UpdateStatus(s, id, status);
            RequestsEvolve(s, rep.store) && AssignmentConsistent(rep.store)
  {
    var rep := UpdateStatus(s, id, status);
    if rep.outcome.Ok? {
      WithStatusEvolves(s, FindRequest(s.requests, id).value, SettableStatus(status).value);
    }
  }

  /** The timer's firing keeps the snapshot and the assignment. */
  lemma FirePreserves(s: Store, id: RequestId)
    requires AssignmentConsistent(s)
    ensures var rep := FireAutoTransition(s, id);
            RequestsEvolve(s, rep.store) && AssignmentConsistent(rep.store)
  {
    var rep := FireAutoTransition(s, id);
    if rep.outcome.value {
      var ri := FindRequest(s.requests, id).value;
      assert AssignedIffPastSent(s.requests[ri]);
      WithStatusEvolves(s, ri, WorkStarted);
    }
  }

  /** Completion confirmation keeps the snapshot and the assignment. */
  lemma ConfirmPreserves(s: Store, caller: User, id: RequestId)
    requires AssignmentConsistent(s)
    ensures var rep := ConfirmCompletion(s, caller, id);
            RequestsEvolve(s, rep.store) && AssignmentConsistent(rep.store)
  {
    var rep := ConfirmCompletion(s, caller, id);
    if rep.outcome.Ok? {
      var ri := FindRequest(s.requests, id).value;
      assert AssignedIffPastSent(s.requests[ri]);
      WithStatusEvolves(s, ri, Completed);
    }
  }

  /** Payment confirmation keeps the snapshot and the assignment. */
  lemma PaymentPreserves(s: Store, id: RequestId)
    requires AssignmentConsistent(s)
    ensures var rep := PaymentConfirm(s, id);
            RequestsEvolve(s, rep.store) && AssignmentConsistent(rep.store)
  {
    var rep := PaymentConfirm(s, id);
    if rep.outcome.Ok? {
      var ri := FindRequest(s.requests, id).value;
      assert AssignedIffPastSent(s.requests[ri]);
      WithStatusEvolves(s, ri, PaymentConfirmed);
    }
  }

  /** The provider and admin routes never touch the request collection. */
  lemma ProfileRoutesLeaveRequests(s: Store, caller: User, availability: string, pid: ProviderId, note: Option<string>, now: int)
    ensures P.SetAvailability(s, caller, availability).store.requests == s.requests
    ensures A.Approve(s, pid, note, now).store.requests == s.requests
    ensures A.Reject(s, pid, note, now).store.requests == s.requests
    ensures A.Deactivate(s, pid).store.requests == s.requests
  {
  }

  /** Accept never moves or renames a request, so later lookups by id find the same one. */
  lemma AcceptKeepsLookup(s: Store, caller: User, id: RequestId, other: RequestId)
    ensures var s1 := Accept(s, caller, id).store;
            FindRequest(s1.requests, other) == FindRequest(s.requests, other) && s1.providers == s.providers
  {
    var s1 := Accept(s, caller, id).store;
    assert |s1.requests| == |s.requests|;
    assert forall j :: 0 <= j < |s.requests| ==> s1.requests[j].id == s.requests[j].id;
    FindSameIds(s.requests, s1.requests, other);
  }

  lemma FindSameIds(rs: seq<ServiceRequest>, rs': seq<ServiceRequest>, id: RequestId)
    requires |rs| == |rs'| && forall j :: 0 <= j < |rs| ==> rs'[j].id == rs[j].id
    ensures FindRequest(rs', id) == FindRequest(rs, id)
  {
  }

  /** Once a request is taken, no later accept by anyone succeeds or changes anything. */
  lemma AcceptOnlyOnce(s: Store, first: User, second: User, id: RequestId)
    requires Accept(s, first, id).outcome.Ok?
    ensures var s1 := Accept(s, first, id).store;
            var rep := Accept(s1, second, id);
            rep.outcome.Err? && rep.store == s1 && rep.events == []
            && rep.outcome.error.code in {403, 409}
  {
    var s1 := Accept(s, first, id).store;
    var ri := FindRequest(s.requests, id).value;
    assert FindRequest(s1.requests, id) == Some(ri) by {
      assert forall j :: 0 <= j < |s.requests| ==> s1.requests[j].id == s.requests[j].id;
    }
    assert !OpenRequest(s1, id);
  }

  /**
   * Accepts by `callers`, one after another, on request `id`: the final
   * store and the positions of the callers who succeeded.
   */
  function Race(s: Store, id: RequestId, callers: seq<User>): (res: (Store, seq<nat>))
    ensures forall k :: 0 <= k < |res.1| ==> res.1[k] < |callers|
    ensures res.0.providers == s.providers
    decreases |callers|
  {
    if |callers| == 0 then (s, [])
    else
      var rep := Accept(s, callers[0], id);
      var rest := Race(rep.store, id, callers[1..]);
      (rest.0, (if rep.outcome.Ok? then [0] else []) + Shift(rest.1))
  }

  /** Positions one further along. */
  function Shift(positions: seq<nat>): (r: seq<nat>)
    ensures |r| == |positions|
    ensures forall k :: 0 <= k < |r| ==> r[k] == positions[k] + 1
  {
    seq(|positions|, k requires 0 <= k < |positions| => positions[k] + 1)
  }

  /** A request that is no longer open stays closed and nobody wins it. */
  lemma {:induction false} RaceClosed(s: Store, id: RequestId, callers: seq<User>)
    requires !OpenRequest(s, id)
    ensures Race(s, id, callers) == (s, [])
  {
    if |callers| > 0 {
      var rep := Accept(s, callers[0], id);
      assert rep.store == s && rep.outcome.Err?;
      RaceClosed(s, id, callers[1..]);
      var rest := Race(s, id, callers[1..]);
      assert rest == (s, []);
      assert Shift(rest.1) == [];
      var winners: seq<nat> := [] + Shift(rest.1);
      assert winners == [];
      assert Race(s, id, callers) == (rest.0, winners);
    }
  }

  /**
   * Of any sequence of accepts on one request, at most one succeeds; one
   * does exactly when the request was open and some caller holds an
   * APPROVED profile, and the winner is the first such caller.
   */
  lemma {:induction false} RaceHasOneWinner(s: Store, id: RequestId, callers: seq<User>)
    ensures |Race(s, id, callers).1| <= 1
    ensures |Race(s, id, callers).1| == 1 <==>
              OpenRequest(s, id) && exists k :: 0 <= k < |callers| && ApprovedCaller(s, callers[k])
    ensures |Race(s, id, callers).1| == 1 ==>
              var w := Race(s, id, callers).1[0];
              ApprovedCaller(s, callers[w]) && forall k :: 0 <= k < w ==> !ApprovedCaller(s, callers[k])
  {
    if |callers| > 0 {
      var rep := Accept(s, callers[0], id);
      if rep.outcome.Ok? {
        FirstCallerWins(s, id, callers);
      } else if !OpenRequest(s, id) {
        RaceClosed(s, id, callers);
      } else {
        var approved := (u: User) => ApprovedCaller(s, u);
        RaceHasOneWinner(s, id, callers[1..]);
        FirstCallerLoses(s, id, callers);
        assert FirstWinner(callers[1..], approved, OpenRequest(s, id), Race(s, id, callers[1..]).1);
        PastUnapproved(callers, approved, OpenRequest(s, id), Race(s, id, callers[1..]).1);
        assert FirstWinner(callers, approved, OpenRequest(s, id), Race(s, id, callers).1);
      }
    }
  }

  /**
   * At most one winner, present exactly when `open` holds and some caller
   * satisfies `approved`, and then the first such caller.
   */
  ghost predicate FirstWinner<T>(callers: seq<T>, approved: T -> bool, open: bool, winners: seq<nat>) {
    && |winners| <= 1
    && (|winners| == 1 <==> open && exists k :: 0 <= k < |callers| && approved(callers[k]))
    && (|winners| == 1 ==>
          && winners[0] < |callers| && approved(callers[winners[0]])
          && forall k :: 0 <= k < winners[0] ==> !approved(callers[k]))
  }

  /** An unapproved first caller shifts the winner of the others by one place. */
  lemma PastUnapproved<T>(callers: seq<T>, approved: T -> bool, open: bool, tailWinners: seq<nat>)
    requires |callers| > 0 && !approved(callers[0])
    requires FirstWinner(callers[1..], approved, open, tailWinners)
    ensures FirstWinner(callers, approved, open, Shift(tailWinners))
  {
    var tail := callers[1..];
    if exists k :: 0 <= k < |callers| && approved(callers[k]) {
      var k :| 0 <= k < |callers| && approved(callers[k]);
      assert approved(tail[k - 1]);
    }
    if exists k :: 0 <= k < |tail| && approved(tail[k]) {
      var k :| 0 <= k < |tail| && approved(tail[k]);
      assert approved(callers[k + 1]);
    }
    if |tailWinners| == 1 {
      var w := tailWinners[0];
      assert callers[w + 1] == tail[w];
      forall k | 0 <= k < w + 1 ensures !approved(callers[k]) {
        if k > 0 {
          assert callers[k] == tail[k - 1];
        }
      }
    }
  }

  /** A first caller who wins the accept is the only winner of the race. */
  lemma FirstCallerWins(s: Store, id: RequestId, callers: seq<User>)
    requires |callers| > 0 && Accept(s, callers[0], id).outcome.Ok?
    ensures Race(s, id, callers).1 == [0]
  {
    var rep := Accept(s, callers[0], id);
    var ri := FindRequest(s.requests, id).value;
    assert FindRequest(rep.store.requests, id) == Some(ri) by {
      assert forall j :: 0 <= j < |s.requests| ==> rep.store.requests[j].id == s.requests[j].id;
    }
    RaceClosed(rep.store, id, callers[1..]);
    assert Shift(Race(rep.store, id, callers[1..]).1) == [];
  }

  /** A first caller who loses the accept leaves the race to the others, unchanged. */
  lemma FirstCallerLoses(s: Store, id: RequestId, callers: seq<User>)
    requires |callers| > 0 && Accept(s, callers[0], id).outcome.Err?
    ensures Race(s, id, callers).1 == Shift(Race(s, id, callers[1..]).1)
  {
    assert Accept(s, callers[0], id).store == s;
    var winners: seq<nat> := [] + Shift(Race(s, id, callers[1..]).1);
    assert winners == Shift(Race(s, id, callers[1..]).1);
  }

  /** Firing twice is firing once: the second firing finds nothing to do. */
  lemma FireIdempotent(s: Store, id: RequestId)
    ensures var first := FireAutoTransition(s, id);
            FireAutoTransition(first.store, id) == Reply(first.store, [], Ok(false))
  {
    var first := FireAutoTransition(s, id);
    match FindRequest(s.requests, id)
    case None =>
    case Some(ri) =>
      assert FindRequest(first.store.requests, id) == Some(ri) by {
        assert forall j :: 0 <= j < |s.requests| ==> first.store.requests[j].id == s.requests[j].id;
      }
  }

  /**
   * Setting ARRIVED arms the timer, and if nothing else happens first, its
   * firing moves the request to WORK_STARTED and announces it.
   */
  lemma ArrivedThenFire(s: Store, id: RequestId)
    requires UpdateStatus(s, id, "ARRIVED").outcome.Ok?
    ensures var upd := UpdateStatus(s, id, "ARRIVED");
            var fire := FireAutoTransition(upd.store, id);
            && upd.outcome.value.armsTimer
            && fire.outcome == Ok(true)
            && fire.events == [Event(RequestRoom(id), StatusChanged(id, WorkStarted))]
            && fire.store.requests[FindRequest(s.requests, id).value].status == WorkStarted
  {
    var upd := UpdateStatus(s, id, "ARRIVED");
    var ri := FindRequest(s.requests, id).value;
    assert FindRequest(upd.store.requests, id) == Some(ri) by {
      assert forall j :: 0 <= j < |s.requests| ==> upd.store.requests[j].id == s.requests[j].id;
    }
  }

  /** A timer armed by ARRIVED does nothing if the provider has moved on before it fires. */
  lemma StaleTimerHarmless(s: Store, id: RequestId, next: string)
    requires UpdateStatus(s, id, next).outcome.Ok? && next != "ARRIVED"
    ensures var upd := UpdateStatus(s, id, next);
            FireAutoTransition(upd.store, id) == Reply(upd.store, [], Ok(false))
  {
    var upd := UpdateStatus(s, id, next);
    var ri := FindRequest(s.requests, id).value;
    assert FindRequest(upd.store.requests, id) == Some(ri) by {
      assert forall j :: 0 <= j < |s.requests| ==> upd.store.requests[j].id == s.requests[j].id;
    }
  }

  /**
   * The status route does not check the previous status: an assigned
   * request that is COMPLETED or PAYMENT_CONFIRMED can be sent back to
   * ON_THE_WAY.
   */
  lemma StatusCanRegress(s: Store, id: RequestId)
    requires FindRequest(s.requests, id).Some?
    requires s.requests[FindRequest(s.requests, id).value].assignedProviderId.Some?
    ensures var ri := FindRequest(s.requests, id).value;
            var rep := UpdateStatus(s, id, "ON_THE_WAY");
            && rep.outcome.Ok?
            && rep.store.requests[ri].status == OnTheWay
            && (Rank(s.requests[ri].status) > Rank(OnTheWay) ==>
                  Rank(rep.store.requests[ri].status) < Rank(s.requests[ri].status))
  {
    assert SettableStatus("ON_THE_WAY") == Some(OnTheWay);
  }

  /** Nor does it check adjacency: an ACCEPTED request may jump straight to COMPLETION_REQUESTED. */
  lemma StatusCanSkipAhead(s: Store, id: RequestId)
    requires FindRequest(s.requests, id).Some?
    requires s.requests[FindRequest(s.requests, id).value].assignedProviderId.Some?
    ensures var rep := UpdateStatus(s, id, "COMPLETION_REQUESTED");
            rep.outcome.Ok? && rep.store.requests[FindRequest(s.requests, id).value].status == CompletionRequested
  {
    assert SettableStatus("COMPLETION_REQUESTED") == Some(CompletionRequested);
  }

  /**
   * Every user told of a new request owns an eligible profile (category,
   * APPROVED, AVAILABLE, active, within 5000 m), at most five are told, and
   * the response reports how many.
   */
  lemma NotifiedAreEligible(
    s: Store, caller: User, newId: RequestId, now: int, dist: Distance,
    category: Option<string>, description: Option<string>, lng: Option<int>, lat: Option<int>)
    requires CreateFieldsPresent(category, lng, lat) && FindRequest(s.requests, newId).None?
    ensures Create(s, caller, newId, now, dist, category, description, lng, lat).outcome.Ok?
    ensures var created := Create(s, caller, newId, now, dist, category, description, lng, lat).outcome.value;
            var notified := created.request.notifiedProviderUserIds;
            && |notified| <= NotifyLimit
            && created.notifiedProviders == |notified|
            && forall i :: 0 <= i < |notified| ==>
                 exists p :: p in s.providers && p.userId == notified[i]
                             && Eligible(p, category.value, Point(lng.value, lat.value), dist)
  {
    OwnersEligible(s.providers, category.value, Point(lng.value, lat.value), dist);
  }

  /** The owners of the notify set each own an eligible stored profile; there are at most five. */
  lemma OwnersEligible(providers: seq<ProviderProfile>, category: string, center: Point, dist: Distance)
    ensures var notified := Owners(NotifySet(providers, category, center, dist));
            && |notified| <= NotifyLimit
            && forall i :: 0 <= i < |notified| ==>
                 exists p :: p in providers && p.userId == notified[i] && Eligible(p, category, center, dist)
  {
    var chosen := NotifySet(providers, category, center, dist);
    var notified := Owners(chosen);
    forall i | 0 <= i < |notified|
      ensures exists p :: p in providers && p.userId == notified[i] && Eligible(p, category, center, dist)
    {
      assert chosen[i] in multiset(chosen);
      assert chosen[i] in providers;
      assert chosen[i].userId == notified[i] && Eligible(chosen[i], category, center, dist);
    }
  }

  /**
   * A deactivated provider may switch itself back to AVAILABLE: the
   * availability route does not look at `isActive`. It is then listed on the
   * customers' map but never notified of new requests.
   */
  lemma DeactivatedCanGoAvailable(s: Store, caller: User, i: nat)
    requires i < |s.providers| && FindProfileOf(s.providers, caller.id) == Some(i)
    requires s.providers[i].verificationStatus == Approved
    requires FindProfile(s.providers, s.providers[i].id) == Some(i)
    ensures var s1 := A.Deactivate(s, s.providers[i].id).store;
            var rep := P.SetAvailability(s1, caller, "AVAILABLE");
            && rep.outcome.Ok?
            && !rep.outcome.value.isActive && rep.outcome.value.availability == Available
            && rep.outcome.value.verificationStatus == Approved
            && rep.outcome.value.categories == s.providers[i].categories
            && rep.outcome.value.location == s.providers[i].location
            && forall category: string, center: Point, dist: Distance ::
                 category in s.providers[i].categories && dist(s.providers[i].location, center) <= MaxDistanceMeters ==>
                   Listed(rep.outcome.value, category, center, dist) && !Eligible(rep.outcome.value, category, center, dist)
  {
    var s1 := A.Deactivate(s, s.providers[i].id).store;
    assert FindProfileOf(s1.providers, caller.id) == Some(i) by {
      assert forall j :: 0 <= j < |s.providers| ==> s1.providers[j].userId == s.providers[j].userId;
    }
    assert ParseAvailability("AVAILABLE") == Some(Available);
  }
}

/**
 * The service-request routes: creation with matching and fan-out, the atomic
 * accept with revocation, the provider's status updates and the deferred
 * ARRIVED -> WORK_STARTED step, the customer's completion confirmation, the
 * payment confirmation, and the read routes.
 */
module Requests {
  import opened Wrappers
  import opened Models
  import opened Bus
  import opened Db
  import opened Matching
  import opened Seqs

  const MissingFields: string := "category, lng, lat required"
  const AlreadyTaken: string := "Request already taken"
  const RequestNotFound: string := "Request not found"
  const InvalidStatusUpdate: string := "Invalid status update"
  const NotAssigned: string := "Request not assigned yet"
  const NotYourRequest: string := "Not your request"
  const CompletionNotRequested: string := "Completion not requested yet"
  const CompletionNotConfirmed: string := "Customer must confirm completion first"

  /** The statuses a provider may set directly. */
  const ProviderSettable: seq<Status> := [OnTheWay, Arrived, WorkStarted, CompletionRequested]

  /** The response of a successful creation: the request and how many providers were told. */
  datatype Created = Created(request: ServiceRequest, notifiedProviders: nat)

  /** The response of a successful status update, and whether it arms the auto-transition timer. */
  datatype StatusUpdated = StatusUpdated(request: ServiceRequest, armsTimer: bool)

  /** The owners of `profiles`, in order (`providers.map(p => p.userId)`). */
  function Owners(profiles: seq<ProviderProfile>): (ids: seq<UserId>)
    ensures |ids| == |profiles|
    ensures forall i :: 0 <= i < |ids| ==> ids[i] == profiles[i].userId
  {
    seq(|profiles|, i requires 0 <= i < |profiles| => profiles[i].userId)
  }

  /** `offer` to the personal room of each user in `userIds`, in order. */
  function OfferEvents(userIds: seq<UserId>, offer: Payload): (events: seq<Event>)
    ensures |events| == |userIds|
    ensures forall i :: 0 <= i < |events| ==> events[i] == Event(ProviderRoom(userIds[i]), offer)
  {
    if |userIds| == 0 then []
    else [Event(ProviderRoom(userIds[0]), offer)] + OfferEvents(userIds[1..], offer)
  }

  /** `request:taken` to every user of `notified` except `winner`. */
  function TakenEvents(notified: seq<UserId>, winner: UserId, id: RequestId): (events: seq<Event>)
    ensures forall e :: e in events ==>
              e.payload == Taken(id) && exists u :: u in notified && u != winner && e.room == ProviderRoom(u)
    ensures forall u :: u in notified && u != winner ==> Event(ProviderRoom(u), Taken(id)) in events
  {
    if |notified| == 0 then []
    else
      var rest := TakenEvents(notified[1..], winner, id);
      assert forall u :: u in notified ==> u == notified[0] || u in notified[1..];
      if notified[0] == winner then rest
      else [Event(ProviderRoom(notified[0]), Taken(id))] + rest
  }

  /** `s` with the status of request `i` replaced. */
  function WithStatus(s: Store, i: nat, status: Status): (s': Store)
    requires i < |s.requests|
    ensures s'.users == s.users && s'.providers == s.providers
    ensures |s'.requests| == |s.requests|
    ensures s'.requests[i].status == status && s'.requests[i].(status := s.requests[i].status) == s.requests[i]
    ensures forall j :: 0 <= j < |s.requests| && j != i ==> s'.requests[j] == s.requests[j]
  {
    s.(requests := s.requests[i := s.requests[i].(status := status)])
  }

  predicate CreateFieldsPresent(category: Option<string>, lng: Option<int>, lat: Option<int>) {
    Truthy(category) && lng.Some? && lat.Some?
  }

  /**
   * POST /requests by the customer `caller`: store the request with the
   * snapshot of notified providers and offer it to each of them. `newId` is
   * the id the store assigns and `now` the creation time.
   */
  function Create(
    s: Store, caller: User, newId: RequestId, now: int, dist: Distance,
    category: Option<string>, description: Option<string>, lng: Option<int>, lat: Option<int>)
    : (rep: Reply<Created>)
    ensures !CreateFieldsPresent(category, lng, lat) ==> rep == Refuse(s, 400, MissingFields)
    ensures CreateFieldsPresent(category, lng, lat) && FindRequest(s.requests, newId).Some? ==>
              rep == Refuse(s, 500, ServerError)
    ensures rep.outcome.Ok? <==> CreateFieldsPresent(category, lng, lat) && FindRequest(s.requests, newId).None?
    ensures rep.outcome.Ok? ==>
              var req := rep.outcome.value.request;
              var center := Point(lng.value, lat.value);
              && rep.store == s.(requests := s.requests + [req])
              && req.id == newId && req.customerId == caller.id
              && req.category == category.value && req.description == description
              && req.location == center && req.createdAt == now
              && req.status == RequestSent && req.assignedProviderId.None?
              && req.notifiedProviderUserIds == Owners(NotifySet(s.providers, category.value, center, dist))
              && rep.outcome.value.notifiedProviders == |req.notifiedProviderUserIds|
              && |rep.events| == |req.notifiedProviderUserIds|
              && forall i :: 0 <= i < |rep.events| ==>
                   rep.events[i] == Event(ProviderRoom(req.notifiedProviderUserIds[i]),
                                          NewOffer(newId, category.value, description, center))
  {
    if !CreateFieldsPresent(category, lng, lat) then Refuse(s, 400, MissingFields)
    else if FindRequest(s.requests, newId).Some? then Refuse(s, 500, ServerError)
    else
      var center := Point(lng.value, lat.value);
      var notified := Owners(NotifySet(s.providers, category.value, center, dist));
      var req := NewRequest(newId, caller.id, category.value, description, center, notified, now);
      Reply(s.(requests := s.requests + [req]),
            OfferEvents(notified, NewOffer(newId, category.value, description, center)),
            Ok(Created(req, |notified|)))
  }

  /** `caller` owns a provider profile (the first found) and it is APPROVED. */
  predicate ApprovedCaller(s: Store, caller: User) {
    var pi := FindProfileOf(s.providers, caller.id);
    pi.Some? && s.providers[pi.value].verificationStatus == Approved
  }

  /** Request `id` exists, is REQUEST_SENT and has no assigned provider. */
  predicate OpenRequest(s: Store, id: RequestId) {
    var ri := FindRequest(s.requests, id);
    ri.Some? && s.requests[ri.value].status == RequestSent && s.requests[ri.value].assignedProviderId.None?
  }

  /**
   * POST /requests/:id/accept by the provider user `caller`: one conditional
   * update that sets ACCEPTED and the assignment only if the request is still
   * REQUEST_SENT and unassigned; then the customer's room is told and every
   * other notified provider gets the offer revoked.
   */
  function Accept(s: Store, caller: User, id: RequestId): (rep: Reply<ServiceRequest>)
    ensures !ApprovedCaller(s, caller) ==> rep == Refuse(s, 403, NotApproved)
    ensures ApprovedCaller(s, caller) && !OpenRequest(s, id) ==> rep == Refuse(s, 409, AlreadyTaken)
    ensures rep.outcome.Ok? <==> ApprovedCaller(s, caller) && OpenRequest(s, id)
    ensures rep.outcome.Ok? ==>
              var profile := s.providers[FindProfileOf(s.providers, caller.id).value];
              var ri := FindRequest(s.requests, id).value;
              var before := s.requests[ri];
              && rep.store.users == s.users && rep.store.providers == s.providers
              && |rep.store.requests| == |s.requests|
              && (forall j :: 0 <= j < |s.requests| && j != ri ==> rep.store.requests[j] == s.requests[j])
              && rep.store.requests[ri] == before.(status := Accepted, assignedProviderId := Some(profile.id))
              && rep.outcome.value == rep.store.requests[ri]
              && |rep.events| >= 1
              && rep.events[0] == Event(RequestRoom(id), AcceptedBy(id, profile.id))
              && rep.events[1..] == TakenEvents(before.notifiedProviderUserIds, caller.id, id)
  {
    match FindProfileOf(s.providers, caller.id)
    case None => Refuse(s, 403, NotApproved)
    case Some(pi) =>
      var profile := s.providers[pi];
      if profile.verificationStatus != Approved then Refuse(s, 403, NotApproved)
      else match FindRequest(s.requests, id)
        case None => Refuse(s, 409, AlreadyTaken)
        case Some(ri) =>
          var r := s.requests[ri];
          if r.status != RequestSent || r.assignedProviderId.Some? then Refuse(s, 409, AlreadyTaken)
          else
            var r' := r.(status := Accepted, assignedProviderId := Some(profile.id));
            Reply(s.(requests := s.requests[ri := r']),
                  [Event(RequestRoom(id), AcceptedBy(id, profile.id))]
                    + TakenEvents(r.notifiedProviderUserIds, caller.id, id),
                  Ok(r'))
  }

  /** The status named `x` if a provider may set it directly. */
  function SettableStatus(x: string): (r: Option<Status>)
    ensures r.Some? ==> StatusName(r.value) == x && r.value in ProviderSettable
    ensures r.None? ==> forall st :: st in ProviderSettable ==> StatusName(st) != x
  {
    match ParseStatus(x)
    case Some(st) => if st in ProviderSettable then Some(st) else None
    case None => None
  }

  /**
   * POST /requests/:id/status: any provider user may set any of the four
   * provider statuses on any assigned request; the previous status is not
   * consulted. Setting ARRIVED arms the auto-transition timer.
   */
  function UpdateStatus(s: Store, id: RequestId, status: string): (rep: Reply<StatusUpdated>)
    ensures FindRequest(s.requests, id).None? ==> rep == Refuse(s, 404, RequestNotFound)
    ensures FindRequest(s.requests, id).Some? && SettableStatus(status).None? ==>
              rep == Refuse(s, 400, InvalidStatusUpdate)
    ensures FindRequest(s.requests, id).Some? && SettableStatus(status).Some?
              && s.requests[FindRequest(s.requests, id).value].assignedProviderId.None? ==>
              rep == Refuse(s, 400, NotAssigned)
    ensures rep.outcome.Ok? <==>
              && FindRequest(s.requests, id).Some? && SettableStatus(status).Some?
              && s.requests[FindRequest(s.requests, id).value].assignedProviderId.Some?
    ensures rep.outcome.Ok? ==>
              var ri := FindRequest(s.requests, id).value;
              var st := SettableStatus(status).value;
              && rep.store == WithStatus(s, ri, st)
              && rep.outcome.value == StatusUpdated(rep.store.requests[ri], st == Arrived)
              && rep.events == [Event(RequestRoom(id), StatusChanged(id, st))]
  {
    match FindRequest(s.requests, id)
    case None => Refuse(s, 404, RequestNotFound)
    case Some(ri) =>
      match SettableStatus(status)
      case None => Refuse(s, 400, InvalidStatusUpdate)
      case Some(st) =>
        if s.requests[ri].assignedProviderId.None? then Refuse(s, 400, NotAssigned)
        else
          var s' := WithStatus(s, ri, st);
          Reply(s', [Event(RequestRoom(id), StatusChanged(id, st))], Ok(StatusUpdated(s'.requests[ri], st == Arrived)))
  }

  /**
   * The deferred task armed by ARRIVED, when it fires: re-read the request and
   * move it to WORK_STARTED only if it is still ARRIVED. The outcome says
   * whether it acted.
   */
  function FireAutoTransition(s: Store, id: RequestId): (rep: Reply<bool>)
    ensures rep.outcome.Ok?
    ensures rep.outcome.value <==>
              FindRequest(s.requests, id).Some? && s.requests[FindRequest(s.requests, id).value].status == Arrived
    ensures !rep.outcome.value ==> rep.store == s && rep.events == []
    ensures rep.outcome.value ==>
              && rep.store == WithStatus(s, FindRequest(s.requests, id).value, WorkStarted)
              && rep.events == [Event(RequestRoom(id), StatusChanged(id, WorkStarted))]
  {
    match FindRequest(s.requests, id)
    case None => Reply(s, [], Ok(false))
    case Some(ri) =>
      if s.requests[ri].status != Arrived then Reply(s, [], Ok(false))
      else Reply(WithStatus(s, ri, WorkStarted), [Event(RequestRoom(id), StatusChanged(id, WorkStarted))], Ok(true))
  }

  /** POST /requests/:id/confirm-completion by the customer `caller`. */
  function ConfirmCompletion(s: Store, caller: User, id: RequestId): (rep: Reply<ServiceRequest>)
    ensures FindRequest(s.requests, id).None? ==> rep == Refuse(s, 404, RequestNotFound)
    ensures FindRequest(s.requests, id).Some? && s.requests[FindRequest(s.requests, id).value].customerId != caller.id ==>
              rep == Refuse(s, 403, NotYourRequest)
    ensures FindRequest(s.requests, id).Some? && s.requests[FindRequest(s.requests, id).value].customerId == caller.id
              && s.requests[FindRequest(s.requests, id).value].status != CompletionRequested ==>
              rep == Refuse(s, 400, CompletionNotRequested)
    ensures rep.outcome.Ok? <==>
              && FindRequest(s.requests, id).Some?
              && s.requests[FindRequest(s.requests, id).value].customerId == caller.id
              && s.requests[FindRequest(s.requests, id).value].status == CompletionRequested
    ensures rep.outcome.Ok? ==>
              var ri := FindRequest(s.requests, id).value;
              && rep.store == WithStatus(s, ri, Completed)
              && rep.outcome.value == rep.store.requests[ri]
              && rep.events == [Event(RequestRoom(id), StatusChanged(id, Completed))]
  {
    match FindRequest(s.requests, id)
    case None => Refuse(s, 404, RequestNotFound)
    case Some(ri) =>
      if s.requests[ri].customerId != caller.id then Refuse(s, 403, NotYourRequest)
      else if s.requests[ri].status != CompletionRequested then Refuse(s, 400, CompletionNotRequested)
      else
        var s' := WithStatus(s, ri, Completed);
        Reply(s', [Event(RequestRoom(id), StatusChanged(id, Completed))], Ok(s'.requests[ri]))
  }

  /** POST /requests/:id/payment-confirm: any provider user, once the request is COMPLETED. */
  function PaymentConfirm(s: Store, id: RequestId): (rep: Reply<ServiceRequest>)
    ensures FindRequest(s.requests, id).None? ==> rep == Refuse(s, 404, RequestNotFound)
    ensures FindRequest(s.requests, id).Some? && s.requests[FindRequest(s.requests, id).value].status != Completed ==>
              rep == Refuse(s, 400, CompletionNotConfirmed)
    ensures rep.outcome.Ok? <==>
              FindRequest(s.requests, id).Some? && s.requests[FindRequest(s.requests, id).value].status == Completed
    ensures rep.outcome.Ok? ==>
              var ri := FindRequest(s.requests, id).value;
              && rep.store == WithStatus(s, ri, PaymentConfirmed)
              && rep.outcome.value == rep.store.requests[ri]
              && rep.events == [Event(RequestRoom(id), StatusChanged(id, PaymentConfirmed))]
  {
    match FindRequest(s.requests, id)
    case None => Refuse(s, 404, RequestNotFound)
    case Some(ri) =>
      if s.requests[ri].status != Completed then Refuse(s, 400, CompletionNotConfirmed)
      else
        var s' := WithStatus(s, ri, PaymentConfirmed);
        Reply(s', [Event(RequestRoom(id), StatusChanged(id, PaymentConfirmed))], Ok(s'.requests[ri]))
  }

  /** GET /requests: the caller's own requests, newest first. */
  function CustomerRequests(s: Store, caller: User): (r: seq<ServiceRequest>)
    ensures forall i :: 0 <= i < |r| ==> r[i].customerId == caller.id
    ensures forall q: ServiceRequest :: q.customerId == caller.id ==> multiset(r)[q] == multiset(s.requests)[q]
    ensures forall i, j :: 0 <= i < j < |r| ==> r[i].createdAt >= r[j].createdAt
  {
    var mine := (q: ServiceRequest) => q.customerId == caller.id;
    var r := NewestFirst(Filter(s.requests, mine));
    assert r == SortBy(Filter(s.requests, mine), NewerFirstKey);
    SortedFilterSatisfies(s.requests, mine, NewerFirstKey);
    assert forall i :: 0 <= i < |r| ==> mine(r[i]);
    r
  }

  /** GET /requests/:id. */
  function GetRequest(s: Store, id: RequestId): (r: Result<ServiceRequest, HttpError>)
    ensures r.Ok? <==> FindRequest(s.requests, id).Some?
    ensures r.Ok? ==> r.value.id == id && r.value in s.requests
    ensures r.Err? ==> r.error == HttpError(404, Message(RequestNotFound))
  {
    match FindRequest(s.requests, id)
    case None => Err(HttpError(404, Message(RequestNotFound)))
    case Some(ri) => Ok(s.requests[ri])
  }
}

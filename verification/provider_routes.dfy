/**
 * The provider routes: the availability switch with its approval gate, the
 * public nearby-providers query, and the provider's pull of open requests.
 */
module ProviderRoutes {
  import opened Wrappers
  import opened Models
  import opened Db
  import opened Matching

  const InvalidAvailability: string := "Invalid availability"
  const ProviderProfileNotFound: string := "Provider profile not found"
  const MustBeApproved: string := "Provider must be approved before going AVAILABLE"
  const NearbyParamsRequired: string := "lng, lat, and category are required"

  /** PATCH /provider/availability by the provider user `caller`. */
  function SetAvailability(s: Store, caller: User, availability: string): (rep: Reply<ProviderProfile>)
    ensures ParseAvailability(availability).None? ==> rep == Refuse(s, 400, InvalidAvailability)
    ensures ParseAvailability(availability).Some? && FindProfileOf(s.providers, caller.id).None? ==>
              rep == Refuse(s, 404, ProviderProfileNotFound)
    ensures ParseAvailability(availability) == Some(Available) && FindProfileOf(s.providers, caller.id).Some?
              && s.providers[FindProfileOf(s.providers, caller.id).value].verificationStatus != Approved ==>
              rep == Reply(s, [], Err(HttpError(403, MessageWithStatus(MustBeApproved,
                       s.providers[FindProfileOf(s.providers, caller.id).value].verificationStatus))))
    ensures rep.outcome.Ok? <==>
              && ParseAvailability(availability).Some?
              && FindProfileOf(s.providers, caller.id).Some?
              && (s.providers[FindProfileOf(s.providers, caller.id).value].verificationStatus == Approved
                  || ParseAvailability(availability).value != Available)
    ensures rep.outcome.Err? ==> rep.store == s
    ensures rep.events == []
    ensures rep.outcome.Ok? ==>
              var pi := FindProfileOf(s.providers, caller.id).value;
              && rep.store == s.(providers := s.providers[pi := rep.outcome.value])
              && rep.outcome.value == s.providers[pi].(availability := ParseAvailability(availability).value)
  {
    match ParseAvailability(availability)
    case None => Refuse(s, 400, InvalidAvailability)
    case Some(a) =>
      match FindProfileOf(s.providers, caller.id)
      case None => Refuse(s, 404, ProviderProfileNotFound)
      case Some(pi) =>
        var p := s.providers[pi];
        if p.verificationStatus != Approved && a == Available then
          Reply(s, [], Err(HttpError(403, MessageWithStatus(MustBeApproved, p.verificationStatus))))
        else
          var p' := p.(availability := a);
          Reply(s.(providers := s.providers[pi := p']), [], Ok(p'))
  }

  /**
   * GET /provider/nearby?lng&lat&category: a read-only preview for customers.
   * `toNumber` is JavaScript's `Number` on the query strings.
   */
  function NearbyProviders(
    s: Store, lng: Option<string>, lat: Option<string>, category: Option<string>,
    toNumber: string -> int, dist: Distance)
    : (r: Result<seq<ProviderProfile>, HttpError>)
    ensures r.Err? <==> !Truthy(lng) || !Truthy(lat) || !Truthy(category)
    ensures r.Err? ==> r.error == HttpError(400, Message(NearbyParamsRequired))
    ensures r.Ok? ==>
              var center := Point(toNumber(lng.value), toNumber(lat.value));
              && |r.value| <= NearbyLimit
              && multiset(r.value) <= multiset(s.providers)
              && (forall i :: 0 <= i < |r.value| ==> Listed(r.value[i], category.value, center, dist))
              && forall p :: p in s.providers && Listed(p, category.value, center, dist) && p !in r.value ==>
                   |r.value| == NearbyLimit
    ensures r.Ok? ==>
              r.value == Nearby(s.providers, category.value, Point(toNumber(lng.value), toNumber(lat.value)), dist)
  {
    if !Truthy(lng) || !Truthy(lat) || !Truthy(category) then Err(HttpError(400, Message(NearbyParamsRequired)))
    else Ok(Nearby(s.providers, category.value, Point(toNumber(lng.value), toNumber(lat.value)), dist))
  }

  /** GET /provider/open-requests by the provider user `caller`. */
  function OpenRequestsFor(s: Store, caller: User, dist: Distance): (r: Result<seq<ServiceRequest>, HttpError>)
    ensures FindProfileOf(s.providers, caller.id).None? ==> r == Err(HttpError(404, Message(ProviderProfileNotFound)))
    ensures FindProfileOf(s.providers, caller.id).Some?
              && s.providers[FindProfileOf(s.providers, caller.id).value].verificationStatus != Approved ==>
              r == Err(HttpError(403, Message(NotApproved)))
    ensures FindProfileOf(s.providers, caller.id).Some?
              && s.providers[FindProfileOf(s.providers, caller.id).value].verificationStatus == Approved ==>
              r.Ok?
    ensures FindProfileOf(s.providers, caller.id).Some?
              && s.providers[FindProfileOf(s.providers, caller.id).value].availability != Available ==>
              r.Err? || r.value == []
    ensures r.Ok? ==>
              var me := s.providers[FindProfileOf(s.providers, caller.id).value];
              && |r.value| <= OpenRequestsLimit
              && multiset(r.value) <= multiset(s.requests)
              && (forall i :: 0 <= i < |r.value| ==> OpenFor(r.value[i], me, dist))
              && (forall i, j :: 0 <= i < j < |r.value| ==> r.value[i].createdAt >= r.value[j].createdAt)
    ensures FindProfileOf(s.providers, caller.id).Some? ==>
              var me := s.providers[FindProfileOf(s.providers, caller.id).value];
              me.verificationStatus == Approved && me.availability == Available ==>
                r == Ok(OpenRequests(s.requests, me, dist))
  {
    match FindProfileOf(s.providers, caller.id)
    case None => Err(HttpError(404, Message(ProviderProfileNotFound)))
    case Some(pi) =>
      var me := s.providers[pi];
      if me.verificationStatus != Approved then Err(HttpError(403, Message(NotApproved)))
      else if me.availability != Available then Ok([])
      else Ok(OpenRequests(s.requests, me, dist))
  }
}

/** The admin routes over provider profiles and the full request list. */
module Admin {
  import opened Wrappers
  import opened Models
  import opened Db
  import opened Matching

  const ProviderNotFound: string := "Provider not found"
  const DefaultRejection: string := "Rejected"

  /** JavaScript's `x || fallback` on an optional string: empty and missing both fall back. */
  function OrElse(x: Option<string>, fallback: string): (r: string)
    ensures Truthy(x) ==> r == x.value
    ensures !Truthy(x) ==> r == fallback
  {
    if Truthy(x) then x.value else fallback
  }

  /** A profile in `s` replaced by `p'`, all else unchanged. */
  ghost predicate ReplacesProfile(s: Store, s': Store, i: nat, p': ProviderProfile) {
    i < |s.providers| && s' == s.(providers := s.providers[i := p'])
  }

  /** POST /admin/provider/:id/approve at time `now`, whatever the current status. */
  function Approve(s: Store, id: ProviderId, notes: Option<string>, now: int): (rep: Reply<ProviderProfile>)
    ensures FindProfile(s.providers, id).None? <==> rep == Refuse(s, 404, ProviderNotFound)
    ensures rep.events == []
    ensures rep.outcome.Ok? <==> FindProfile(s.providers, id).Some?
    ensures rep.outcome.Ok? ==>
              var i := FindProfile(s.providers, id).value;
              var p' := rep.outcome.value;
              && ReplacesProfile(s, rep.store, i, p')
              && p'.verificationStatus == Approved
              && p'.verificationNotes == Some(OrElse(notes, ""))
              && p'.verifiedAt == Some(now)
              && p' == s.providers[i].(verificationStatus := p'.verificationStatus,
                                       verificationNotes := p'.verificationNotes, verifiedAt := p'.verifiedAt)
  {
    match FindProfile(s.providers, id)
    case None => Refuse(s, 404, ProviderNotFound)
    case Some(i) =>
      var p' := s.providers[i].(verificationStatus := Approved, verificationNotes := Some(OrElse(notes, "")),
                                verifiedAt := Some(now));
      Reply(s.(providers := s.providers[i := p']), [], Ok(p'))
  }

  /** POST /admin/provider/:id/reject at time `now`. */
  function Reject(s: Store, id: ProviderId, reason: Option<string>, now: int): (rep: Reply<ProviderProfile>)
    ensures FindProfile(s.providers, id).None? <==> rep == Refuse(s, 404, ProviderNotFound)
    ensures rep.events == []
    ensures rep.outcome.Ok? <==> FindProfile(s.providers, id).Some?
    ensures rep.outcome.Ok? ==>
              var i := FindProfile(s.providers, id).value;
              var p' := rep.outcome.value;
              && ReplacesProfile(s, rep.store, i, p')
              && p'.verificationStatus == Rejected
              && p'.verificationNotes == Some(OrElse(reason, DefaultRejection))
              && p'.verifiedAt == Some(now)
              && p' == s.providers[i].(verificationStatus := p'.verificationStatus,
                                       verificationNotes := p'.verificationNotes, verifiedAt := p'.verifiedAt)
  {
    match FindProfile(s.providers, id)
    case None => Refuse(s, 404, ProviderNotFound)
    case Some(i) =>
      var p' := s.providers[i].(verificationStatus := Rejected,
                                verificationNotes := Some(OrElse(reason, DefaultRejection)),
                                verifiedAt := Some(now));
      Reply(s.(providers := s.providers[i := p']), [], Ok(p'))
  }

  /** POST /admin/provider/:id/deactivate: inactive and OFFLINE, verification untouched. */
  function Deactivate(s: Store, id: ProviderId): (rep: Reply<ProviderProfile>)
    ensures FindProfile(s.providers, id).None? <==> rep == Refuse(s, 404, ProviderNotFound)
    ensures rep.events == []
    ensures rep.outcome.Ok? <==> FindProfile(s.providers, id).Some?
    ensures rep.outcome.Ok? ==>
              var i := FindProfile(s.providers, id).value;
              var p' := rep.outcome.value;
              && ReplacesProfile(s, rep.store, i, p')
              && !p'.isActive && p'.availability == Offline
              && p'.verificationStatus == s.providers[i].verificationStatus
              && p' == s.providers[i].(isActive := false, availability := Offline)
  {
    match FindProfile(s.providers, id)
    case None => Refuse(s, 404, ProviderNotFound)
    case Some(i) =>
      var p' := s.providers[i].(isActive := false, availability := Offline);
      Reply(s.(providers := s.providers[i := p']), [], Ok(p'))
  }

  /** GET /admin/requests: every request, newest first. */
  function AllRequests(s: Store): (r: seq<ServiceRequest>)
    ensures multiset(r) == multiset(s.requests)
    ensures forall i, j :: 0 <= i < j < |r| ==> r[i].createdAt >= r[j].createdAt
  {
    NewestFirst(s.requests)
  }
}

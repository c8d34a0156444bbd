/**
 * The authenticated HTTP surface: each route with the roles its middleware
 * demands, dispatched after `auth(requiredRoles)` has resolved the caller.
 */
module Api {
  import opened Wrappers
  import opened Models
  import opened Db
  import opened Gate
  import opened Matching
  import R = Requests
  import P = ProviderRoutes
  import A = Admin

  /** The collaborators a request needs: token verification, distances, the clock, the next id. */
  datatype Env = Env(verify: Verifier, dist: Distance, now: int, freshId: string)

  datatype Route =
    | PostRequest(category: Option<string>, description: Option<string>, lng: Option<int>, lat: Option<int>)
    | PostAccept(id: RequestId)
    | PostStatus(id: RequestId, status: string)
    | PostConfirmCompletion(id: RequestId)
    | PostPaymentConfirm(id: RequestId)
    | GetMyRequests
    | GetRequestById(id: RequestId)
    | PatchAvailability(availability: string)
    | GetOpenRequests
    | PostApprove(providerId: ProviderId, notes: Option<string>)
    | PostReject(providerId: ProviderId, reason: Option<string>)
    | PostDeactivate(providerId: ProviderId)
    | GetAdminRequests

  datatype Body =
    | RequestBody(request: ServiceRequest)
    | CreatedBody(created: R.Created)
    | StatusBody(updated: R.StatusUpdated)
    | RequestsBody(requests: seq<ServiceRequest>)
    | ProfileBody(profile: ProviderProfile)

  /** The roles each route's middleware admits; empty admits any signed-in user. */
  function RequiredRoles(route: Route): (roles: seq<Role>)
    ensures |roles| <= 1
    ensures roles == [] <==> route.GetRequestById?
    ensures roles == [Customer] <==> route.PostRequest? || route.PostConfirmCompletion? || route.GetMyRequests?
    ensures roles == [Provider] <==>
              route.PostAccept? || route.PostStatus? || route.PostPaymentConfirm?
              || route.PatchAvailability? || route.GetOpenRequests?
    ensures roles == [Admin] <==>
              route.PostApprove? || route.PostReject? || route.PostDeactivate? || route.GetAdminRequests?
  {
    match route
    case PostRequest(_, _, _, _) => [Customer]
    case PostAccept(_) => [Provider]
    case PostStatus(_, _) => [Provider]
    case PostConfirmCompletion(_) => [Customer]
    case PostPaymentConfirm(_) => [Provider]
    case GetMyRequests => [Customer]
    case GetRequestById(_) => []
    case PatchAvailability(_) => [Provider]
    case GetOpenRequests => [Provider]
    case PostApprove(_, _) => [Admin]
    case PostReject(_, _) => [Admin]
    case PostDeactivate(_) => [Admin]
    case GetAdminRequests => [Admin]
  }

  function Wrap<T>(rep: Reply<T>, wrap: T -> Body): (rep': Reply<Body>)
    ensures rep'.store == rep.store && rep'.events == rep.events
    ensures rep'.outcome.Ok? <==> rep.outcome.Ok?
    ensures rep'.outcome.Err? ==> rep'.outcome.error == rep.outcome.error
  {
    match rep.outcome
    case Ok(v) => Reply(rep.store, rep.events, Ok(wrap(v)))
    case Err(e) => Reply(rep.store, rep.events, Err(e))
  }

  function Answer<T>(s: Store, r: Result<T, HttpError>, wrap: T -> Body): (rep: Reply<Body>)
    ensures rep.store == s && rep.events == []
  {
    match r
    case Ok(v) => Reply(s, [], Ok(wrap(v)))
    case Err(e) => Reply(s, [], Err(e))
  }

  /** The routes that only read the store. */
  predicate ReadOnly(route: Route) {
    route.GetMyRequests? || route.GetRequestById? || route.GetOpenRequests? || route.GetAdminRequests?
  }

  /** The routes that write a provider profile: the availability switch and the admin decisions. */
  predicate ProfileRoute(route: Route) {
    route.PatchAvailability? || route.PostApprove? || route.PostReject? || route.PostDeactivate?
  }

  /** The routes that write a service request. */
  predicate RequestRoute(route: Route) {
    route.PostRequest? || route.PostAccept? || route.PostStatus? || route.PostConfirmCompletion? || route.PostPaymentConfirm?
  }

  /** The handlers that write a service request. */
  function DispatchRequest(env: Env, s: Store, caller: User, route: Route): (rep: Reply<Body>)
    requires RequestRoute(route)
    ensures rep.outcome.Err? ==> rep.store == s && rep.events == []
    ensures rep.store.users == s.users && rep.store.providers == s.providers
  {
    match route
    case PostRequest(category, description, lng, lat) =>
      Wrap(R.Create(s, caller, env.freshId, env.now, env.dist, category, description, lng, lat), (c: R.Created) => CreatedBody(c))
    case PostAccept(id) => Wrap(R.Accept(s, caller, id), (r: ServiceRequest) => RequestBody(r))
    case PostStatus(id, status) => Wrap(R.UpdateStatus(s, id, status), (u: R.StatusUpdated) => StatusBody(u))
    case PostConfirmCompletion(id) => Wrap(R.ConfirmCompletion(s, caller, id), (r: ServiceRequest) => RequestBody(r))
    case PostPaymentConfirm(id) => Wrap(R.PaymentConfirm(s, id), (r: ServiceRequest) => RequestBody(r))
  }

  /** The handlers that write a provider profile. */
  function DispatchProfile(env: Env, s: Store, caller: User, route: Route): (rep: Reply<Body>)
    requires ProfileRoute(route)
    ensures rep.outcome.Err? ==> rep.store == s
    ensures rep.store.users == s.users && rep.store.requests == s.requests && rep.events == []
  {
    match route
    case PatchAvailability(a) => Wrap(P.SetAvailability(s, caller, a), (p: ProviderProfile) => ProfileBody(p))
    case PostApprove(pid, notes) => Wrap(A.Approve(s, pid, notes, env.now), (p: ProviderProfile) => ProfileBody(p))
    case PostReject(pid, reason) => Wrap(A.Reject(s, pid, reason, env.now), (p: ProviderProfile) => ProfileBody(p))
    case PostDeactivate(pid) => Wrap(A.Deactivate(s, pid), (p: ProviderProfile) => ProfileBody(p))
  }

  /** The handlers that only read. */
  function DispatchRead(env: Env, s: Store, caller: User, route: Route): (rep: Reply<Body>)
    requires ReadOnly(route)
    ensures rep.store == s && rep.events == []
  {
    match route
    case GetMyRequests => Reply(s, [], Ok(RequestsBody(R.CustomerRequests(s, caller))))
    case GetRequestById(id) => Answer(s, R.GetRequest(s, id), (r: ServiceRequest) => RequestBody(r))
    case GetOpenRequests => Answer(s, P.OpenRequestsFor(s, caller, env.dist), (rs: seq<ServiceRequest>) => RequestsBody(rs))
    case GetAdminRequests => Reply(s, [], Ok(RequestsBody(A.AllRequests(s))))
  }

  /**
   * The route table, for a caller the middleware has already admitted. A
   * refused request changes nothing, the reads change nothing, the profile
   * routes touch only profiles, and the request routes touch only requests.
   */
  function Dispatch(env: Env, s: Store, caller: User, route: Route): (rep: Reply<Body>)
    ensures rep.outcome.Err? ==> rep.store == s && rep.events == []
    ensures ReadOnly(route) ==> rep.store == s && rep.events == []
    ensures ProfileRoute(route) ==> rep.store.users == s.users && rep.store.requests == s.requests && rep.events == []
    ensures RequestRoute(route) ==> rep.store.users == s.users && rep.store.providers == s.providers
  {
    RoutesPartitioned(route);
    if RequestRoute(route) then DispatchRequest(env, s, caller, route)
    else if ProfileRoute(route) then DispatchProfile(env, s, caller, route)
    else DispatchRead(env, s, caller, route)
  }

  /** Every route is in exactly one of the three groups. */
  lemma RoutesPartitioned(route: Route)
    ensures RequestRoute(route) || ProfileRoute(route) || ReadOnly(route)
    ensures !(RequestRoute(route) && ProfileRoute(route))
    ensures !(RequestRoute(route) && ReadOnly(route))
    ensures !(ProfileRoute(route) && ReadOnly(route))
  {
  }

  /**
   * A request to `route` carrying the authorization `header`: refused by the
   * middleware with nothing stored or emitted, or handled for the resolved user.
   */
  function Handle(env: Env, s: Store, header: Option<string>, route: Route): (rep: Reply<Body>)
    ensures Authorize(s.users, header, env.verify, RequiredRoles(route)).Err? ==>
              rep == Reply(s, [], Err(Authorize(s.users, header, env.verify, RequiredRoles(route)).error))
    ensures Authorize(s.users, header, env.verify, RequiredRoles(route)).Ok? ==>
              var caller := Authorize(s.users, header, env.verify, RequiredRoles(route)).value;
              && caller in s.users && RoleAdmitted(caller.role, RequiredRoles(route))
              && rep == Dispatch(env, s, caller, route)
  {
    match Authorize(s.users, header, env.verify, RequiredRoles(route))
    case Err(e) => Reply(s, [], Err(e))
    case Ok(caller) => Dispatch(env, s, caller, route)
  }

  /** The header resolves to a signed-in user with role `role`. */
  predicate SignedInAs(s: Store, env: Env, header: Option<string>, role: Role) {
    var r := Authorize(s.users, header, env.verify, []);
    r.Ok? && r.value.role == role
  }

  /**
   * A signed-in user whose role the route does not admit gets 403 and
   * changes nothing: a customer cannot accept, a provider cannot confirm
   * completion, only an admin reaches the admin routes.
   */
  lemma WrongRoleForbidden(env: Env, s: Store, header: Option<string>, route: Route, role: Role)
    requires SignedInAs(s, env, header, role)
    requires |RequiredRoles(route)| > 0 && role !in RequiredRoles(route)
    ensures Handle(env, s, header, route) == Reply(s, [], Err(HttpError(403, Message(Forbidden))))
  {
    var any := Authorize(s.users, header, env.verify, []);
    var uid := env.verify(BearerToken(header.value)).value;
    assert FindUser(s.users, uid).Some?;
  }

  /**
   * The status route does not look at who the provider is: any two provider
   * users get the same reply, whether or not either is the assigned one.
   */
  lemma StatusUpdateIgnoresCaller(env: Env, s: Store, h1: Option<string>, h2: Option<string>, id: RequestId, status: string)
    requires SignedInAs(s, env, h1, Provider) && SignedInAs(s, env, h2, Provider)
    ensures Handle(env, s, h1, PostStatus(id, status)) == Handle(env, s, h2, PostStatus(id, status))
  {
    var u1 := env.verify(BearerToken(h1.value)).value;
    var u2 := env.verify(BearerToken(h2.value)).value;
    assert FindUser(s.users, u1).Some? && FindUser(s.users, u2).Some?;
  }

  /** Payment confirmation does not look at who the provider is either. */
  lemma PaymentConfirmIgnoresCaller(env: Env, s: Store, h1: Option<string>, h2: Option<string>, id: RequestId)
    requires SignedInAs(s, env, h1, Provider) && SignedInAs(s, env, h2, Provider)
    ensures Handle(env, s, h1, PostPaymentConfirm(id)) == Handle(env, s, h2, PostPaymentConfirm(id))
  {
    var u1 := env.verify(BearerToken(h1.value)).value;
    var u2 := env.verify(BearerToken(h2.value)).value;
    assert FindUser(s.users, u1).Some? && FindUser(s.users, u2).Some?;
  }
}

/**
 * The document store (users, provider profiles, service requests as
 * collections in insertion order), the lookups the routes perform on it,
 * and the reply every route produces: the store afterwards, the events
 * emitted, and the response body or HTTP error.
 */
module Db {
  import opened Wrappers
  import opened Models
  import opened Bus
  import opened Seqs

  datatype Store = Store(
    users: seq<User>,
    providers: seq<ProviderProfile>,
    requests: seq<ServiceRequest>)

  /**
   * An error response body: `{message}`, express-validator's `{errors}`
   * (failed field names), or `{message, verificationStatus}`.
   */
  datatype ErrorBody =
    | Message(text: string)
    | FieldErrors(fields: seq<string>)
    | MessageWithStatus(text: string, verificationStatus: Verification)

  datatype HttpError = HttpError(code: nat, body: ErrorBody)

  /** What a route leaves behind: the store, the emitted events, the response. */
  datatype Reply<T> = Reply(store: Store, events: seq<Event>, outcome: Result<T, HttpError>)

  const ServerError: string := "Server error"
  /** The refusal the accept and open-requests routes give a provider that is not APPROVED. */
  const NotApproved: string := "Provider not approved"

  /** A rejection before any write: nothing stored, nothing emitted. */
  function Refuse<T>(s: Store, code: nat, message: string): Reply<T> {
    Reply(s, [], Err(HttpError(code, Message(message))))
  }

  /** `User.findById(id)`. */
  function FindUser(users: seq<User>, id: UserId): (r: Option<nat>)
    ensures r.Some? ==> r.value < |users| && users[r.value].id == id
    ensures r.Some? ==> forall j :: 0 <= j < r.value ==> users[j].id != id
    ensures r.None? ==> forall i :: 0 <= i < |users| ==> users[i].id != id
  {
    IndexOf(users, (u: User) => u.id == id)
  }

  /** `User.findOne({email})`. */
  function FindUserByEmail(users: seq<User>, email: string): (r: Option<nat>)
    ensures r.Some? ==> r.value < |users| && users[r.value].email == email
    ensures r.Some? ==> forall j :: 0 <= j < r.value ==> users[j].email != email
    ensures r.None? ==> forall i :: 0 <= i < |users| ==> users[i].email != email
  {
    IndexOf(users, (u: User) => u.email == email)
  }

  /** `Provider.findOne({userId})`: the first profile owned by `userId`. */
  function FindProfileOf(providers: seq<ProviderProfile>, userId: UserId): (r: Option<nat>)
    ensures r.Some? ==> r.value < |providers| && providers[r.value].userId == userId
    ensures r.Some? ==> forall j :: 0 <= j < r.value ==> providers[j].userId != userId
    ensures r.None? ==> forall i :: 0 <= i < |providers| ==> providers[i].userId != userId
  {
    IndexOf(providers, (p: ProviderProfile) => p.userId == userId)
  }

  /** `Provider.findById(id)`. */
  function FindProfile(providers: seq<ProviderProfile>, id: ProviderId): (r: Option<nat>)
    ensures r.Some? ==> r.value < |providers| && providers[r.value].id == id
    ensures r.Some? ==> forall j :: 0 <= j < r.value ==> providers[j].id != id
    ensures r.None? ==> forall i :: 0 <= i < |providers| ==> providers[i].id != id
  {
    IndexOf(providers, (p: ProviderProfile) => p.id == id)
  }

  /** `ServiceRequest.findById(id)`. */
  function FindRequest(requests: seq<ServiceRequest>, id: RequestId): (r: Option<nat>)
    ensures r.Some? ==> r.value < |requests| && requests[r.value].id == id
    ensures r.Some? ==> forall j :: 0 <= j < r.value ==> requests[j].id != id
    ensures r.None? ==> forall i :: 0 <= i < |requests| ==> requests[i].id != id
  {
    IndexOf(requests, (r: ServiceRequest) => r.id == id)
  }

  /**
   * A request's identity and snapshot fields are the same in `r'` as in `r`,
   * and an assignment, once made, is kept.
   */
  ghost predicate SameRequest(r: ServiceRequest, r': ServiceRequest) {
    && r'.id == r.id
    && r'.customerId == r.customerId
    && r'.category == r.category
    && r'.description == r.description
    && r'.location == r.location
    && r'.notifiedProviderUserIds == r.notifiedProviderUserIds
    && r'.createdAt == r.createdAt
    && (r.assignedProviderId.Some? ==> r'.assignedProviderId == r.assignedProviderId)
  }

  /**
   * `s'` extends the request collection of `s`: every existing request is
   * still there, at the same position, with the same snapshot.
   */
  ghost predicate RequestsEvolve(s: Store, s': Store) {
    && |s.requests| <= |s'.requests|
    && forall i :: 0 <= i < |s.requests| ==> SameRequest(s.requests[i], s'.requests[i])
  }

  /** A request is assigned exactly when it has left REQUEST_SENT. */
  ghost predicate AssignedIffPastSent(r: ServiceRequest) {
    r.assignedProviderId.Some? <==> r.status != RequestSent
  }

  ghost predicate AssignmentConsistent(s: Store) {
    forall i :: 0 <= i < |s.requests| ==> AssignedIffPastSent(s.requests[i])
  }
}

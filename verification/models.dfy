/**
 * The persisted records: users, provider profiles and service requests, with
 * the enumerations their schemas declare and the string names those
 * enumerations travel under in request bodies and events.
 */
module Models {
  import opened Wrappers

  type UserId = string
  type ProviderId = string
  type RequestId = string

  /**
   * A location as the store keeps it (`coordinates: [lng, lat]`). Coordinates
   * are abstract numbers here; distances come from a separate oracle.
   */
  datatype Point = Point(lng: int, lat: int)

  /** The GeoJSON coordinate array, longitude first. */
  function Coordinates(p: Point): (c: seq<int>)
    ensures |c| == 2 && Point(c[0], c[1]) == p
  {
    [p.lng, p.lat]
  }

  datatype Role = Customer | Provider | Admin

  function RoleName(r: Role): string {
    match r
    case Customer => "CUSTOMER"
    case Provider => "PROVIDER"
    case Admin => "ADMIN"
  }

  /** The role whose name is `x`, if any. */
  function ParseRole(x: string): (r: Option<Role>)
    ensures r.Some? ==> RoleName(r.value) == x
    ensures r.None? ==> forall role: Role :: RoleName(role) != x
  {
    if x == "CUSTOMER" then Some(Customer)
    else if x == "PROVIDER" then Some(Provider)
    else if x == "ADMIN" then Some(Admin)
    else None
  }

  /** The service-request lifecycle, in its declared order. */
  datatype Status =
    | RequestSent
    | Accepted
    | OnTheWay
    | Arrived
    | WorkStarted
    | CompletionRequested
    | Completed
    | PaymentConfirmed

  const StatusOrder: seq<Status> :=
    [RequestSent, Accepted, OnTheWay, Arrived, WorkStarted, CompletionRequested, Completed, PaymentConfirmed]

  /** Position of `s` in the declared order. */
  function Rank(s: Status): (n: nat)
    ensures n < |StatusOrder| && StatusOrder[n] == s
  {
    match s
    case RequestSent => 0
    case Accepted => 1
    case OnTheWay => 2
    case Arrived => 3
    case WorkStarted => 4
    case CompletionRequested => 5
    case Completed => 6
    case PaymentConfirmed => 7
  }

  function StatusName(s: Status): string {
    match s
    case RequestSent => "REQUEST_SENT"
    case Accepted => "ACCEPTED"
    case OnTheWay => "ON_THE_WAY"
    case Arrived => "ARRIVED"
    case WorkStarted => "WORK_STARTED"
    case CompletionRequested => "COMPLETION_REQUESTED"
    case Completed => "COMPLETED"
    case PaymentConfirmed => "PAYMENT_CONFIRMED"
  }

  /** The status whose name is `x`, if any. */
  function ParseStatus(x: string): (r: Option<Status>)
    ensures r.Some? ==> StatusName(r.value) == x
    ensures r.None? ==> forall s: Status :: StatusName(s) != x
  {
    if x == "REQUEST_SENT" then Some(RequestSent)
    else if x == "ACCEPTED" then Some(Accepted)
    else if x == "ON_THE_WAY" then Some(OnTheWay)
    else if x == "ARRIVED" then Some(Arrived)
    else if x == "WORK_STARTED" then Some(WorkStarted)
    else if x == "COMPLETION_REQUESTED" then Some(CompletionRequested)
    else if x == "COMPLETED" then Some(Completed)
    else if x == "PAYMENT_CONFIRMED" then Some(PaymentConfirmed)
    else None
  }

  /** Every status has exactly one name and the eight names are distinct. */
  lemma {:induction false} StatusNamesRoundTrip(s: Status)
    ensures ParseStatus(StatusName(s)) == Some(s)
  {
    match s
    case RequestSent =>
    case Accepted =>
    case OnTheWay =>
    case Arrived =>
    case WorkStarted =>
    case CompletionRequested =>
    case Completed =>
    case PaymentConfirmed =>
  }

  datatype Verification = Pending | Approved | Rejected

  datatype Availability = Available | Offline | Busy

  function AvailabilityName(a: Availability): string {
    match a
    case Available => "AVAILABLE"
    case Offline => "OFFLINE"
    case Busy => "BUSY"
  }

  /** The availability whose name is `x`, if any. */
  function ParseAvailability(x: string): (r: Option<Availability>)
    ensures r.Some? ==> AvailabilityName(r.value) == x
    ensures r.None? ==> forall a: Availability :: AvailabilityName(a) != x
  {
    if x == "AVAILABLE" then Some(Available)
    else if x == "OFFLINE" then Some(Offline)
    else if x == "BUSY" then Some(Busy)
    else None
  }

  datatype User = User(
    id: UserId,
    name: string,
    email: string,
    phone: string,
    passwordHash: string,
    role: Role)

  /** A provider's profile; `verifiedAt` is a time in milliseconds. */
  datatype ProviderProfile = ProviderProfile(
    id: ProviderId,
    userId: UserId,
    categories: seq<string>,
    profileImage: string,
    idProofUrl: string,
    optionalCertUrl: Option<string>,
    verificationStatus: Verification,
    verificationNotes: Option<string>,
    verifiedAt: Option<int>,
    isActive: bool,
    availability: Availability,
    location: Point,
    address: string)

  /**
   * A required String path of a schema rejects the empty string, so a
   * profile is storable only when these strings are non-empty.
   */
  predicate RequiredProfileFields(p: ProviderProfile) {
    && p.profileImage != ""
    && p.idProofUrl != ""
    && p.address != ""
    && forall i :: 0 <= i < |p.categories| ==> p.categories[i] != ""
  }

  /** A profile as first stored: the schema defaults for everything not given. */
  function NewProfile(
    id: ProviderId, userId: UserId, categories: seq<string>, profileImage: string,
    idProofUrl: string, optionalCertUrl: Option<string>, location: Point, address: string): ProviderProfile
  {
    ProviderProfile(id, userId, categories, profileImage, idProofUrl, optionalCertUrl,
                    Pending, None, None, true, Offline, location, address)
  }

  /** A service request; `createdAt` is a time in milliseconds. */
  datatype ServiceRequest = ServiceRequest(
    id: RequestId,
    customerId: UserId,
    category: string,
    description: Option<string>,
    location: Point,
    status: Status,
    assignedProviderId: Option<ProviderId>,
    notifiedProviderUserIds: seq<UserId>,
    createdAt: int)

  /** A request as first stored: REQUEST_SENT and unassigned. */
  function NewRequest(
    id: RequestId, customerId: UserId, category: string, description: Option<string>,
    location: Point, notified: seq<UserId>, createdAt: int): ServiceRequest
  {
    ServiceRequest(id, customerId, category, description, location, RequestSent, None, notified, createdAt)
  }
}

/**
 * Candidate matching over the geo index. Distances are given by an oracle in
 * whole meters; `$near` with `$maxDistance` keeps the documents at most that
 * far away, nearest first, and `.limit(n)` keeps the first n.
 */
module Matching {
  import opened Models
  import opened Seqs

  /** Great-circle distance in meters between two points, as the geo index computes it. */
  type Distance = (Point, Point) -> nat

  const MaxDistanceMeters: nat := 5000
  const NotifyLimit: nat := 5
  const NearbyLimit: nat := 20
  const OpenRequestsLimit: nat := 30

  /** Matches the nearby-providers query: category, APPROVED, AVAILABLE, in range. */
  predicate Listed(p: ProviderProfile, category: string, center: Point, dist: Distance) {
    && category in p.categories
    && p.verificationStatus == Approved
    && p.availability == Available
    && dist(p.location, center) <= MaxDistanceMeters
  }

  /** Matches the new-request query: as `Listed`, and also active. */
  predicate Eligible(p: ProviderProfile, category: string, center: Point, dist: Distance) {
    Listed(p, category, center, dist) && p.isActive
  }

  /** Matches the provider's open-requests query. */
  predicate OpenFor(r: ServiceRequest, provider: ProviderProfile, dist: Distance) {
    && r.status == RequestSent
    && r.category in provider.categories
    && dist(r.location, provider.location) <= MaxDistanceMeters
  }

  /**
   * The providers notified of a new request at `center`: the nearest eligible
   * ones, at most five of them.
   */
  function NotifySet(providers: seq<ProviderProfile>, category: string, center: Point, dist: Distance)
    : (r: seq<ProviderProfile>)
    ensures |r| <= NotifyLimit
    ensures multiset(r) <= multiset(providers)
    ensures forall i :: 0 <= i < |r| ==> Eligible(r[i], category, center, dist)
    ensures forall i, j :: 0 <= i < j < |r| ==> dist(r[i].location, center) <= dist(r[j].location, center)
    ensures forall p :: p in providers && Eligible(p, category, center, dist) && p !in r ==>
              |r| == NotifyLimit && forall i :: 0 <= i < |r| ==> dist(r[i].location, center) <= dist(p.location, center)
  {
    var ok := (p: ProviderProfile) => Eligible(p, category, center, dist);
    var key := (p: ProviderProfile) => dist(p.location, center);
    var r := Select(providers, ok, key, NotifyLimit);
    assert forall i :: 0 <= i < |r| ==> ok(r[i]);
    assert SortedBy(r, key);
    r
  }

  /** The providers shown on the customer's map: at most twenty listed ones, nearest first. */
  function Nearby(providers: seq<ProviderProfile>, category: string, center: Point, dist: Distance)
    : (r: seq<ProviderProfile>)
    ensures |r| <= NearbyLimit
    ensures multiset(r) <= multiset(providers)
    ensures forall i :: 0 <= i < |r| ==> Listed(r[i], category, center, dist)
    ensures forall i, j :: 0 <= i < j < |r| ==> dist(r[i].location, center) <= dist(r[j].location, center)
    ensures forall p :: p in providers && Listed(p, category, center, dist) && p !in r ==>
              |r| == NearbyLimit && forall i :: 0 <= i < |r| ==> dist(r[i].location, center) <= dist(p.location, center)
  {
    var ok := (p: ProviderProfile) => Listed(p, category, center, dist);
    var key := (p: ProviderProfile) => dist(p.location, center);
    var r := Select(providers, ok, key, NearbyLimit);
    assert forall i :: 0 <= i < |r| ==> ok(r[i]);
    assert SortedBy(r, key);
    r
  }

  /** The open requests near `provider`: at most thirty, newest first. */
  function OpenRequests(requests: seq<ServiceRequest>, provider: ProviderProfile, dist: Distance)
    : (r: seq<ServiceRequest>)
    ensures |r| <= OpenRequestsLimit
    ensures multiset(r) <= multiset(requests)
    ensures forall i :: 0 <= i < |r| ==> OpenFor(r[i], provider, dist)
    ensures forall i, j :: 0 <= i < j < |r| ==> r[i].createdAt >= r[j].createdAt
    ensures forall q :: q in requests && OpenFor(q, provider, dist) && q !in r ==>
              |r| == OpenRequestsLimit && forall i :: 0 <= i < |r| ==> r[i].createdAt >= q.createdAt
  {
    var ok := (q: ServiceRequest) => OpenFor(q, provider, dist);
    var r := Select(requests, ok, NewerFirstKey, OpenRequestsLimit);
    assert forall i :: 0 <= i < |r| ==> ok(r[i]);
    assert SortedBy(r, NewerFirstKey);
    r
  }

  /** The sort key of `sort({createdAt: -1})`: a newer request has a smaller key. */
  function NewerFirstKey(q: ServiceRequest): int {
    -q.createdAt
  }

  /** `requests` newest first (`sort({createdAt: -1})`), the same elements. */
  function NewestFirst(requests: seq<ServiceRequest>): (r: seq<ServiceRequest>)
    ensures multiset(r) == multiset(requests)
    ensures forall i, j :: 0 <= i < j < |r| ==> r[i].createdAt >= r[j].createdAt
  {
    SortBy(requests, NewerFirstKey)
  }
}

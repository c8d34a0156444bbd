/**
 * The socket server: the handshake that never refuses a connection, the
 * automatic join of a provider's personal room, the explicit room joins,
 * the location relay, and which emitted events a connection receives.
 */
module Sockets {
  import opened Wrappers
  import opened Models
  import opened Bus
  import opened Db
  import opened Gate
  import opened Requests

  /** What the handshake records on the socket. */
  datatype Identity = Identity(userId: UserId, role: Role)

  /** A live connection: its identity, if resolved, and the rooms it has joined. */
  datatype Connection = Connection(identity: Option<Identity>, rooms: set<string>)

  /**
   * The handshake middleware: a falsy token, a failed verification or an
   * unknown user all leave the connection anonymous; none of them refuse it.
   */
  function Handshake(users: seq<User>, token: Option<string>, verify: Verifier): (id: Option<Identity>)
    ensures id.Some? <==>
              Truthy(token) && verify(token.value).Some?
              && FindUser(users, verify(token.value).value).Some?
    ensures id.Some? ==>
              var u := users[FindUser(users, verify(token.value).value).value];
              id.value == Identity(u.id, u.role)
  {
    if !Truthy(token) then None
    else match verify(token.value)
      case None => None
      case Some(uid) =>
        match FindUser(users, uid)
        case None => None
        case Some(ui) => Some(Identity(users[ui].id, users[ui].role))
  }

  /** The connection handler's automatic join: a provider's own room, and nothing else. */
  function Connect(identity: Option<Identity>): (c: Connection)
    ensures c.identity == identity
    ensures forall room :: room in c.rooms ==>
              identity.Some? && identity.value.role == Provider && room == ProviderRoom(identity.value.userId)
    ensures identity.Some? && identity.value.role == Provider && identity.value.userId != "" ==>
              ProviderRoom(identity.value.userId) in c.rooms
    ensures identity.Some? && identity.value.userId == "" ==> c.rooms == {}
  {
    if identity.Some? && identity.value.role == Provider && identity.value.userId != "" then
      Connection(identity, {ProviderRoom(identity.value.userId)})
    else
      Connection(identity, {})
  }

  /** `join:provider(userId)`: joins that provider's room, whoever is asking. */
  function JoinProvider(c: Connection, userId: string): (c': Connection)
    ensures c'.identity == c.identity
    ensures c'.rooms == c.rooms + {ProviderRoom(userId)}
  {
    c.(rooms := c.rooms + {ProviderRoom(userId)})
  }

  /** `join:request(requestId)`. */
  function JoinRequest(c: Connection, requestId: string): (c': Connection)
    ensures c'.identity == c.identity
    ensures c'.rooms == c.rooms + {RequestRoom(requestId)}
  {
    c.(rooms := c.rooms + {RequestRoom(requestId)})
  }

  /** `provider:locationUpdate`: forwarded unchanged to the request's room; nothing is stored. */
  function RelayLocation(requestId: string, coords: Point): (events: seq<Event>)
    ensures |events| == 1
    ensures events[0].room == RequestRoom(requestId)
    ensures events[0].payload.LocationRelay? && events[0].payload.requestId == requestId
    ensures events[0].payload.coords == coords
  {
    [Event(RequestRoom(requestId), LocationRelay(requestId, coords))]
  }

  predicate Receives(c: Connection, e: Event) {
    e.room in c.rooms
  }

  /**
   * A provider connected with its own identity and no explicit joins gets a
   * new-request offer exactly when it is in the notified list.
   */
  lemma OfferReachesOnlyNotified(me: UserId, notified: seq<UserId>, offer: Payload)
    requires me != ""
    ensures var c := Connect(Some(Identity(me, Provider)));
            (exists i :: 0 <= i < |OfferEvents(notified, offer)| && Receives(c, OfferEvents(notified, offer)[i]))
            ==> me in notified
    ensures var c := Connect(Some(Identity(me, Provider)));
            me in notified ==>
            (exists i :: 0 <= i < |OfferEvents(notified, offer)| && Receives(c, OfferEvents(notified, offer)[i]))
  {
    var c := Connect(Some(Identity(me, Provider)));
    var events := OfferEvents(notified, offer);
    assert c.rooms == {ProviderRoom(me)};
    if me in notified {
      var i :| 0 <= i < |notified| && notified[i] == me;
      assert events[i].room == ProviderRoom(me);
      assert Receives(c, events[i]);
    }
    forall i | 0 <= i < |events| && Receives(c, events[i]) ensures me in notified {
      assert events[i].room == ProviderRoom(notified[i]) == ProviderRoom(me);
      ProviderRoomInjective(me, notified[i]);
      assert notified[i] == me;
    }
  }

  /**
   * Such a connection gets the revocation of request `id` exactly when it was
   * notified and is not the winner.
   */
  lemma RevocationReachesOnlyLosers(me: UserId, notified: seq<UserId>, winner: UserId, id: RequestId)
    requires me != ""
    ensures var c := Connect(Some(Identity(me, Provider)));
            (exists e :: e in TakenEvents(notified, winner, id) && Receives(c, e))
            <==> me in notified && me != winner
  {
    var c := Connect(Some(Identity(me, Provider)));
    var events := TakenEvents(notified, winner, id);
    if me in notified && me != winner {
      assert Event(ProviderRoom(me), Taken(id)) in events;
      assert Receives(c, Event(ProviderRoom(me), Taken(id)));
    }
    forall e | e in events && Receives(c, e) ensures me in notified && me != winner {
      var u :| u in notified && u != winner && e.room == ProviderRoom(u);
      ProviderRoomInjective(me, u);
    }
  }

  /**
   * `join:provider` is not checked against the identity: any connection,
   * anonymous or not, that names `userId` receives that user's offers.
   */
  lemma JoinProviderUnchecked(c: Connection, userId: string, offer: Payload)
    ensures Receives(JoinProvider(c, userId), Event(ProviderRoom(userId), offer))
  {
  }

  /** A connection that joined only request rooms never receives a provider-room event. */
  lemma RequestRoomsIsolated(requestIds: seq<string>, userId: string, p: Payload)
    ensures var c := Connection(None, set i | 0 <= i < |requestIds| :: RequestRoom(requestIds[i]));
            !Receives(c, Event(ProviderRoom(userId), p))
  {
    forall i | 0 <= i < |requestIds| ensures RequestRoom(requestIds[i]) != ProviderRoom(userId) {
      RoomKindsDisjoint(userId, requestIds[i]);
    }
  }
}

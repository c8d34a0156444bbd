/**
 * The real-time channel vocabulary: room names, the events the server emits,
 * and which events a connection receives.
 */
module Bus {
  import opened Wrappers
  import opened Models

  const ProviderRoomPrefix: string := "provider_"
  const RequestRoomPrefix: string := "request_"

  /** The personal room of the provider-owning user `userId`. */
  function ProviderRoom(userId: string): (room: string)
    ensures |room| == |ProviderRoomPrefix| + |userId|
    ensures room[..|ProviderRoomPrefix|] == ProviderRoomPrefix && room[|ProviderRoomPrefix|..] == userId
  {
    ProviderRoomPrefix + userId
  }

  /** The room of the service request `requestId`. */
  function RequestRoom(requestId: string): (room: string)
    ensures |room| == |RequestRoomPrefix| + |requestId|
    ensures room[..|RequestRoomPrefix|] == RequestRoomPrefix && room[|RequestRoomPrefix|..] == requestId
  {
    RequestRoomPrefix + requestId
  }

  /** Distinct users have distinct provider rooms. */
  lemma ProviderRoomInjective(a: string, b: string)
    ensures ProviderRoom(a) == ProviderRoom(b) <==> a == b
  {
    if ProviderRoom(a) == ProviderRoom(b) {
      assert a == ProviderRoom(a)[|ProviderRoomPrefix|..];
    }
  }

  /** Distinct requests have distinct request rooms. */
  lemma RequestRoomInjective(a: string, b: string)
    ensures RequestRoom(a) == RequestRoom(b) <==> a == b
  {
    if RequestRoom(a) == RequestRoom(b) {
      assert a == RequestRoom(a)[|RequestRoomPrefix|..];
    }
  }

  /** No provider room is ever a request room. */
  lemma RoomKindsDisjoint(a: string, b: string)
    ensures ProviderRoom(a) != RequestRoom(b)
  {
    assert ProviderRoom(a)[0] == 'p';
    assert RequestRoom(b)[0] == 'r';
  }

  /** The payloads of the emitted events; the event name follows from the payload. */
  datatype Payload =
    | NewOffer(requestId: RequestId, category: string, description: Option<string>, customerLocation: Point)
    | Taken(requestId: RequestId)
    | AcceptedBy(requestId: RequestId, providerId: ProviderId)
    | StatusChanged(requestId: RequestId, status: Status)
    | LocationRelay(requestId: string, coords: Point)

  function EventName(p: Payload): string {
    match p
    case NewOffer(_, _, _, _) => "request:new"
    case Taken(_) => "request:taken"
    case AcceptedBy(_, _) => "request:accepted"
    case StatusChanged(_, _) => "request:statusUpdate"
    case LocationRelay(_, _) => "provider:locationUpdate"
  }

  /** `io.to(room).emit(EventName(payload), payload)`. */
  datatype Event = Event(room: string, payload: Payload)
}

/** The protocol records the server exchanges with its clients. */
module Pb {
  import opened Wrappers
  import opened Engine

  datatype EventType = CONNECT | DISCONNECT | UPDATE

  datatype PlayerPosition = PlayerPosition(position: Vec, velocity: Vec)

  /** One player event of a snapshot; `position` is nil when the player is unknown. */
  datatype PlayerEvent = PlayerEvent(username: string, eventType: EventType, position: Option<PlayerPosition>)

  /** A pending tile mutation: chunk coordinates, tile coordinates and serialised tile. */
  datatype TileUpdate = TileUpdate(chunkCoordinates: Coord, tileCoordinates: Coord, tileData: seq<byte>)

  /** The snapshot broadcast to every client. */
  datatype GameState = GameState(players: seq<PlayerEvent>, tileUpdates: seq<TileUpdate>)

  /** The outbound half of a client's Connect stream, as an opaque handle. */
  datatype ConnectStream = ConnectStream(id: nat)

  datatype Ack = Ack

  /** The reply to LoadChunk: the chunk's coordinates and its encoding. */
  datatype ChunkMessage = ChunkMessage(coordinates: Coord, chunkData: seq<byte>)

  datatype UserRegistration = UserRegistration(username: string, password: string, email: string)

  datatype UserLogin = UserLogin(username: string, password: string)

  datatype LoginResponse = LoginResponse(username: string, token: string, success: bool, error: string)

  /** A unary RPC's Go result pair `(*Response, error)`. */
  datatype Reply<+T> = Reply(response: Option<T>, err: Option<string>)
}

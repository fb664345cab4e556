/**
 * The game service of grpc.go: the per-tick snapshot of player events and
 * tile updates, its broadcast, the tile and chunk handlers, and the
 * empty-field guards of Register and Login.
 */
module Server {
  import opened Wrappers
  import opened Engine
  import opened Pb
  import opened Players
  import opened ConnectionRegistry

  /**
   * The errors the handlers return. NilDereference stands for the handler
   * dereferencing a nil pointer, which in Go is a panic rather than a reply.
   */
  datatype RpcError = NilChunk(chunkX: int, chunkY: int) | EncodeFailed(reason: string) | NilDereference

  const RegisterFieldsRequired := "Username, password and email required"
  const LoginFieldsRequired := "Username and password required."

  // ---------------------------------------------------------------------
  // Snapshot construction

  /** Indexing a Go map of pointers: nil for a username that is not there. */
  function Lookup(players: map<string, Player>, username: string): Option<Player>
  {
    if username in players then Some(players[username]) else None
  }

  /** buildPlayerEvent: the event carries a position exactly when the player is non-nil. */
  function BuildPlayerEvent(username: string, player: Option<Player>, eventType: EventType): (e: PlayerEvent)
    ensures e.username == username && e.eventType == eventType
    ensures e.position.Some? <==> player.Some?
    ensures player.Some? ==> e.position.value.position == player.value.position
    ensures player.Some? ==> e.position.value.velocity == player.value.velocity
  {
    var position := if player.Some? then Some(PlayerPosition(player.value.position, player.value.velocity)) else None;
    PlayerEvent(username, eventType, position)
  }

  /** One event of type `eventType` per entry of `names`, in order, built from the player map. */
  function EventsFor(players: map<string, Player>, names: seq<string>, eventType: EventType): (r: seq<PlayerEvent>)
    ensures |r| == |names|
    ensures forall i :: 0 <= i < |names| ==> r[i] == BuildPlayerEvent(names[i], Lookup(players, names[i]), eventType)
  {
    if names == [] then []
    else
      var last := names[|names| - 1];
      EventsFor(players, names[..|names| - 1], eventType) + [BuildPlayerEvent(last, Lookup(players, last), eventType)]
  }

  /**
   * The snapshot buildGameState produces from the player map, the drained
   * connect, disconnect and update lists and the drained tile updates.
   */
  function GameStateOf(players: map<string, Player>, connects: seq<string>, disconnects: seq<string>,
                       updates: seq<string>, tiles: seq<TileUpdate>): GameState
  {
    GameState(EventsFor(players, connects, CONNECT) + EventsFor(players, disconnects, DISCONNECT)
              + EventsFor(players, updates, UPDATE), tiles)
  }

  /** The snapshot broadcastGameState does not send. */
  predicate IsEmptySnapshot(gs: GameState)
  {
    |gs.players| == 0 && |gs.tileUpdates| == 0
  }

  /**
   * Layout of a snapshot: the CONNECT events, then the DISCONNECT events,
   * then the UPDATE events, one per entry and in order, then the tile
   * updates verbatim.
   */
  lemma GameStateLayout(players: map<string, Player>, connects: seq<string>, disconnects: seq<string>,
                        updates: seq<string>, tiles: seq<TileUpdate>)
    ensures var gs := GameStateOf(players, connects, disconnects, updates, tiles);
      && |gs.players| == |connects| + |disconnects| + |updates|
      && (forall i :: 0 <= i < |connects| ==>
            gs.players[i] == BuildPlayerEvent(connects[i], Lookup(players, connects[i]), CONNECT))
      && (forall i :: 0 <= i < |disconnects| ==>
            gs.players[|connects| + i] == BuildPlayerEvent(disconnects[i], Lookup(players, disconnects[i]), DISCONNECT))
      && (forall i :: 0 <= i < |updates| ==>
            gs.players[|connects| + |disconnects| + i] == BuildPlayerEvent(updates[i], Lookup(players, updates[i]), UPDATE))
      && gs.tileUpdates == tiles
  {
    var c := EventsFor(players, connects, CONNECT);
    var d := EventsFor(players, disconnects, DISCONNECT);
    var u := EventsFor(players, updates, UPDATE);
    var all := c + d + u;
    forall i | 0 <= i < |disconnects|
      ensures all[|connects| + i] == d[i]
    {
    }
    forall i | 0 <= i < |updates|
      ensures all[|connects| + |disconnects| + i] == u[i]
    {
    }
  }

  /**
   * Update entries are never filtered: a name that also connected or
   * disconnected in the same tick still yields an UPDATE event, and the
   * update events are exactly one per update entry.
   */
  lemma UpdatesNotFiltered(players: map<string, Player>, connects: seq<string>, disconnects: seq<string>,
                           updates: seq<string>, tiles: seq<TileUpdate>, k: nat)
    requires k < |updates|
    ensures var gs := GameStateOf(players, connects, disconnects, updates, tiles);
      && gs.players[|connects| + |disconnects|..] == EventsFor(players, updates, UPDATE)
      && gs.players[|connects| + |disconnects| + k].username == updates[k]
      && gs.players[|connects| + |disconnects| + k].eventType == UPDATE
  {
    var gs := GameStateOf(players, connects, disconnects, updates, tiles);
    var cd := EventsFor(players, connects, CONNECT) + EventsFor(players, disconnects, DISCONNECT);
    assert gs.players == cd + EventsFor(players, updates, UPDATE);
    assert |cd| == |connects| + |disconnects|;
    assert gs.players[|cd|..] == EventsFor(players, updates, UPDATE);
  }

  /**
   * A name in both the connect list and the update list yields a CONNECT
   * event and also an UPDATE event in the same snapshot.
   */
  lemma ConnectedNameStillUpdated(players: map<string, Player>, connects: seq<string>, disconnects: seq<string>,
                                  updates: seq<string>, tiles: seq<TileUpdate>, name: string)
    requires name in connects && name in updates
    ensures var gs := GameStateOf(players, connects, disconnects, updates, tiles);
      && (exists i :: 0 <= i < |gs.players| && gs.players[i].username == name && gs.players[i].eventType == CONNECT)
      && (exists j :: 0 <= j < |gs.players| && gs.players[j].username == name && gs.players[j].eventType == UPDATE)
  {
    var gs := GameStateOf(players, connects, disconnects, updates, tiles);
    GameStateLayout(players, connects, disconnects, updates, tiles);
    var i :| 0 <= i < |connects| && connects[i] == name;
    var k :| 0 <= k < |updates| && updates[k] == name;
    var j := |connects| + |disconnects| + k;
    assert gs.players[i].username == name && gs.players[i].eventType == CONNECT;
    assert gs.players[j].username == name && gs.players[j].eventType == UPDATE;
  }

  /**
   * A player who connects and sends an update in the same tick appears
   * twice: once as CONNECT and once as UPDATE.
   */
  lemma ConnectAndUpdateInOneTick(name: string, p: Player)
    ensures GameStateOf(map[name := p], [name], [], [name], []).players
            == [PlayerEvent(name, CONNECT, Some(PlayerPosition(p.position, p.velocity))),
                PlayerEvent(name, UPDATE, Some(PlayerPosition(p.position, p.velocity)))]
  {
    var gs := GameStateOf(map[name := p], [name], [], [name], []);
    GameStateLayout(map[name := p], [name], [], [name], []);
    assert |gs.players| == 2;
  }

  /** A DISCONNECT for a player already gone from the map carries no position. */
  lemma DisconnectOfRemovedPlayer(players: map<string, Player>, connects: seq<string>, disconnects: seq<string>,
                                  updates: seq<string>, tiles: seq<TileUpdate>, k: nat)
    requires k < |disconnects| && disconnects[k] !in players
    ensures var gs := GameStateOf(players, connects, disconnects, updates, tiles);
      && |connects| + k < |gs.players|
      && gs.players[|connects| + k] == PlayerEvent(disconnects[k], DISCONNECT, None)
  {
    GameStateLayout(players, connects, disconnects, updates, tiles);
  }

  /** A snapshot is skipped exactly when nothing was drained. */
  lemma EmptySnapshotIff(players: map<string, Player>, connects: seq<string>, disconnects: seq<string>,
                         updates: seq<string>, tiles: seq<TileUpdate>)
    ensures IsEmptySnapshot(GameStateOf(players, connects, disconnects, updates, tiles))
            <==> connects == [] && disconnects == [] && updates == [] && tiles == []
  {
    GameStateLayout(players, connects, disconnects, updates, tiles);
  }

  /**
   * buildGameState: drains the player list's buffers and the tile queue and
   * appends one event per drained name, in four loops. `updates` is the
   * drained update list, which this player list does not keep.
   */
  method BuildGameState(pl: PlayerList, queue: ConcurrentQueue<TileUpdate>, updates: seq<string>)
      returns (state: GameState)
    modifies pl, queue
    ensures state == GameStateOf(old(pl.players), old(pl.recentConnections), old(pl.recentDisconnections),
                                 updates, old(queue.items))
    ensures pl.players == old(pl.players)
    ensures pl.recentConnections == [] && pl.recentDisconnections == []
    ensures queue.items == []
  {
    var players := pl.GetPlayers();
    var connects, disconnects := pl.GetRecents();
    var events: seq<PlayerEvent> := [];

    for i := 0 to |connects|
      invariant events == EventsFor(players, connects[..i], CONNECT)
    {
      assert connects[..i + 1][..i] == connects[..i];
      events := events + [BuildPlayerEvent(connects[i], Lookup(players, connects[i]), CONNECT)];
    }
    assert connects[..|connects|] == connects;
    ghost var afterConnects := events;

    for i := 0 to |disconnects|
      invariant events == afterConnects + EventsFor(players, disconnects[..i], DISCONNECT)
    {
      assert disconnects[..i + 1][..i] == disconnects[..i];
      events := events + [BuildPlayerEvent(disconnects[i], Lookup(players, disconnects[i]), DISCONNECT)];
    }
    assert disconnects[..|disconnects|] == disconnects;
    ghost var afterDisconnects := events;

    for i := 0 to |updates|
      invariant events == afterDisconnects + EventsFor(players, updates[..i], UPDATE)
    {
      // The coverage test's `continue` is commented out in the source, so
      // an update entry is never skipped.
      assert updates[..i + 1][..i] == updates[..i];
      events := events + [BuildPlayerEvent(updates[i], Lookup(players, updates[i]), UPDATE)];
    }
    assert updates[..|updates|] == updates;

    var drained := queue.Drain();
    var tiles: seq<TileUpdate> := [];
    for i := 0 to |drained|
      invariant tiles == drained[..i]
    {
      tiles := tiles + [drained[i]];
    }
    assert drained[..|drained|] == drained;

    state := GameState(events, tiles);
  }

  /**
   * broadcastGameState: builds the snapshot and hands it to Broadcast unless
   * it is empty; `sendFails` names the users whose send fails, and
   * `attempted` is the users it was sent to.
   */
  method BroadcastGameState(conns: Connections, queue: ConcurrentQueue<TileUpdate>, updates: seq<string>,
                            sendFails: set<string>)
      returns (state: GameState, sent: bool, attempted: seq<string>)
    modifies conns, conns.playerList, queue
    ensures state == GameStateOf(old(conns.playerList.players), old(conns.playerList.recentConnections),
                                 old(conns.playerList.recentDisconnections), updates, old(queue.items))
    ensures sent <==> !IsEmptySnapshot(state)
    ensures !sent ==> attempted == [] && conns.outbox == old(conns.outbox)
    ensures sent ==> Distinct(attempted) && Elems(attempted) == old(conns.conns).Keys
    ensures sent ==> conns.outbox == old(conns.outbox) + SendsOf(attempted, state)
    ensures conns.playerList.recentConnections == []
    ensures !sent ==> conns.conns == old(conns.conns) && conns.doneChans == old(conns.doneChans)
                      && conns.signals == old(conns.signals) && conns.playerList.players == old(conns.playerList.players)
                      && conns.playerList.recentDisconnections == []
    ensures sent ==> conns.conns == old(conns.conns) - sendFails
    ensures sent ==> conns.doneChans == old(conns.doneChans) - (sendFails * old(conns.conns).Keys)
    ensures sent ==> conns.playerList.players == old(conns.playerList.players) - (sendFails * old(conns.conns).Keys)
    ensures sent ==> Distinct(conns.playerList.recentDisconnections)
    ensures sent ==> Elems(conns.playerList.recentDisconnections)
                     == sendFails * old(conns.conns).Keys * old(conns.playerList.players).Keys
    ensures sent ==> |conns.signals| >= |old(conns.signals)| && conns.signals[..|old(conns.signals)|] == old(conns.signals)
    ensures sent ==> |conns.signals| == |old(conns.signals)| + |sendFails * old(conns.conns).Keys * old(conns.doneChans).Keys|
    ensures sent ==> SignalledSince(conns.signals, |old(conns.signals)|)
                     == ChansOf(old(conns.doneChans), sendFails * old(conns.conns).Keys)
    ensures queue.items == []
    ensures old(conns.Valid()) ==> conns.Valid()
  {
    state := BuildGameState(conns.playerList, queue, updates);
    if IsEmptySnapshot(state) {
      return state, false, [];
    }
    attempted := conns.Broadcast(state, sendFails);
    assert conns.playerList.recentDisconnections[0..] == conns.playerList.recentDisconnections;
    sent := true;
  }

  // ---------------------------------------------------------------------
  // World handlers

  /**
   * LoadChunk: the loaded chunk at `coords`, loading or creating it first if
   * it is not loaded, encoded with `encode`. `loadOk` says whether the
   * engine's load succeeds; the handler ignores the outcome and encodes
   * whatever it then finds, so a failed load dereferences a nil chunk.
   */
  method LoadChunk(world: World, coords: Coord, generate: Coord -> Chunk, loadOk: bool,
                   encode: Chunk -> Result<seq<byte>, string>)
      returns (r: Result<ChunkMessage, RpcError>)
    modifies world
    ensures coords in old(world.chunks) ==> unchanged(world)
    ensures coords !in old(world.chunks) && !loadOk ==> unchanged(world) && r == Failure(NilDereference)
    ensures coords !in old(world.chunks) && loadOk && coords in old(world.stored) ==>
              world.chunks == old(world.chunks)[coords := old(world.stored)[coords]] && world.stored == old(world.stored)
    ensures coords !in old(world.chunks) && loadOk && coords !in old(world.stored) ==>
              world.chunks == old(world.chunks)[coords := generate(coords)]
              && world.stored == old(world.stored)[coords := generate(coords)]
    ensures coords in old(world.chunks) || loadOk ==>
              && coords in world.chunks
              && (encode(world.chunks[coords]).Success? ==>
                    r == Success(ChunkMessage(coords, encode(world.chunks[coords]).value)))
              && (encode(world.chunks[coords]).Failure? ==>
                    r == Failure(EncodeFailed(encode(world.chunks[coords]).error)))
  {
    var chunk := world.GetChunk(coords);
    if chunk == None {
      world.LoadOrCreateChunk(coords, generate, loadOk);
      chunk := world.GetChunk(coords);
    }
    if chunk == None {
      return Failure(NilDereference);
    }
    var b := encode(chunk.value);
    if b.Failure? {
      return Failure(EncodeFailed(b.error));
    }
    r := Success(ChunkMessage(coords, b.value));
  }

  /**
   * UpdateTile: on a loaded chunk, replaces the tile, persists the chunk
   * (ignoring the outcome, as the source does), queues `tu` and acks; on a
   * chunk that is not loaded it fails and changes nothing. `deserialize`
   * may give nil, and setting the back-reference on nil is a nil dereference.
   */
  method UpdateTile(world: World, queue: ConcurrentQueue<TileUpdate>, tu: TileUpdate,
                    deserialize: seq<byte> -> Option<Tile>, storeOk: bool)
      returns (r: Result<Ack, RpcError>)
    modifies world, queue
    ensures tu.chunkCoordinates !in old(world.chunks) ==>
              r == Failure(NilChunk(tu.chunkCoordinates.x, tu.chunkCoordinates.y))
              && unchanged(world) && unchanged(queue)
    ensures tu.chunkCoordinates in old(world.chunks) && deserialize(tu.tileData).None? ==>
              r == Failure(NilDereference) && unchanged(world) && unchanged(queue)
    ensures tu.chunkCoordinates in old(world.chunks) && deserialize(tu.tileData).Some? ==>
              var cc, tc := tu.chunkCoordinates, tu.tileCoordinates;
              var tile := deserialize(tu.tileData).value.(chunk := Some(cc));
              && r == Success(Ack)
              && world.chunks == old(world.chunks)[cc := old(world.chunks)[cc].ReplaceTile(tc.x, tc.y, tile)]
              && (storeOk ==> world.stored == old(world.stored)[cc := world.chunks[cc]])
              && (!storeOk ==> world.stored == old(world.stored))
              && queue.items == old(queue.items) + [tu]
  {
    var cc, tc := tu.chunkCoordinates, tu.tileCoordinates;
    var c := world.GetChunk(cc);
    if c == None {
      return Failure(NilChunk(cc.x, cc.y));
    }
    var decoded := deserialize(tu.tileData);
    if decoded == None {
      return Failure(NilDereference);
    }
    var tile := decoded.value.(chunk := Some(cc));
    world.ReplaceTile(cc, tc.x, tc.y, tile);
    var _ := world.PersistToDisk(cc, storeOk);
    queue.Push(tu);
    r := Success(Ack);
  }

  /**
   * An acknowledged tile update is in the next snapshot exactly once, after
   * everything queued before it, and the snapshot after that carries no tiles.
   */
  method TileUpdateReachesOneSnapshot(world: World, pl: PlayerList, queue: ConcurrentQueue<TileUpdate>,
                                      tu: TileUpdate, deserialize: seq<byte> -> Option<Tile>, storeOk: bool)
      returns (ack: Result<Ack, RpcError>, first: GameState, second: GameState)
    requires tu.chunkCoordinates in world.chunks && deserialize(tu.tileData).Some?
    modifies world, pl, queue
    ensures ack == Success(Ack)
    ensures first.tileUpdates == old(queue.items) + [tu]
    ensures second.tileUpdates == []
  {
    ack := UpdateTile(world, queue, tu, deserialize, storeOk);
    first := BuildGameState(pl, queue, []);
    second := BuildGameState(pl, queue, []);
  }

  // ---------------------------------------------------------------------
  // Request guards

  /**
   * Register: a request missing the username, password or email is refused
   * before anything else is done; otherwise `proceed` (account creation and
   * token issuing) decides the reply.
   */
  function Register(req: UserRegistration, proceed: UserRegistration -> Reply<LoginResponse>): (r: Reply<LoginResponse>)
    ensures (req.username == "" || req.password == "" || req.email == "") ==>
              r == Reply(None, Some(RegisterFieldsRequired))
    ensures req.username != "" && req.password != "" && req.email != "" ==> r == proceed(req)
  {
    if req.username == "" || req.password == "" || req.email == "" then
      Reply(None, Some(RegisterFieldsRequired))
    else
      proceed(req)
  }

  /**
   * Login: a request missing the username or password is refused before any
   * account lookup; otherwise `proceed` decides the reply.
   */
  function Login(req: UserLogin, proceed: UserLogin -> Reply<LoginResponse>): (r: Reply<LoginResponse>)
    ensures (req.username == "" || req.password == "") ==> r == Reply(None, Some(LoginFieldsRequired))
    ensures req.username != "" && req.password != "" ==> r == proceed(req)
  {
    if req.username == "" || req.password == "" then
      Reply(None, Some(LoginFieldsRequired))
    else
      proceed(req)
  }
}

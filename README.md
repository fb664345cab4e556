# together-server: session bookkeeping and snapshot building

A sequential Dafny model of the in-memory bookkeeping of the together-server
game server:

- **Player list** (`players.go`, module `Players`): the connected players by
  username, plus two recency buffers. These are the recent connections and the
  recent disconnections. `GetRecents` hands both buffers out and empties them.
- **Connection registry** (`connections.go`, module `ConnectionRegistry`): an
  outbound stream and a done channel per username. It has guarded `Add`, `Remove`
  and `Get`, and a `Broadcast` that removes the users whose send failed.
  `Remove` also takes the player off the player list. The registry's invariant
  `Valid()` says the two maps have the same keys. It holds after the
  constructor, and `Add`, `Remove` and `Broadcast` each preserve it.
- **Game service** (`grpc.go`, module `Server`): `BuildGameState` drains the
  buffers and the tile-update queue into one snapshot. It is proved against the
  function `GameStateOf`, and lemmas give that function's layout.
  `BroadcastGameState` skips empty snapshots. `UpdateTile` and `LoadChunk` act
  on the world. `Register` and `Login` reject requests with empty fields.

The external game engine appears as the module `Engine`. Vectors and players
are plain records whose fields are not interpreted, and a chunk is a map from tile coordinates to tiles. The world is
a class holding the loaded chunks and the chunks in the durable store. The
concurrent queue is a class over a sequence. The wire records are in module
`Pb`.

Deviations modelled as the Go code has them:

- `GetRecents` in `players.go` returns two buffers. `grpc.go` reads three of
  them, the third being the list of updated players. So `BuildGameState` takes
  that update list as an explicit input.
- The `continue` that should skip update entries already covered by a connect
  or a disconnect is commented out (grpc.go:229). So update entries are never
  filtered. A player who connects and updates in one tick gets both a CONNECT
  and an UPDATE event (`Server.ConnectAndUpdateInOneTick`).
- `UpdateTile` ignores the result of `PersistToDisk` (grpc.go:292). It acks
  even when the store write fails. The oracle `storeOk` shows this: the contract
  acks for both values.
- `Remove` in `connections.go` calls the engine's player list. The model gives
  the registry the player-list object it updates.

## Model

| member | source | states |
|---|---|---|
| Players.PlayerList.constructor | players.go:20-25 | a new list has no players and two empty buffers |
| Players.PlayerList.AddPlayer | players.go:31-46 | a taken username is an error and leaves the map and both buffers unchanged; otherwise the name maps to a fresh player, every other key keeps its value, the name is appended once to the recent connections, and the disconnections are untouched |
| Players.PlayerList.RemovePlayer | players.go:52-67 | an absent username gives false and changes nothing; a present one gives true, only that key is deleted, and the name is appended to the recent disconnections |
| Players.PlayerList.GetRecents | players.go:69-79 | returns both buffers as they were before the call, leaves both empty, and keeps the players |
| Players.PlayerList.ClearRecents | players.go:84-87 | both buffers become empty and the players stay |
| Players.PlayerList.GetPlayers | players.go:89-94 | returns the current player map and changes nothing |
| Players.DrainTwice | players.go:69-87 | two drains with no mutation between: the first returns the buffers, the second returns two empty sequences |
| ConnectionRegistry.Connections.constructor | connections.go:27-33 | a new registry has no conns, no done channels, no signals and no sends, so the key sets are equal |
| ConnectionRegistry.Connections.Get | connections.go:35-44 | nil for an unregistered username, otherwise the stored stream; no state change |
| ConnectionRegistry.Connections.Remove | connections.go:52-71 | absent: false, and neither the registry nor the player list changes; nothing is sent in either case; present: true, the conn is deleted, the done channel is signalled and deleted, and the player is removed from the player list; the key-set invariant holds afterwards |
| ConnectionRegistry.Connections.Add | connections.go:94-114 | a username that already has a conn is an error and the first session's entries stay; nothing is sent; otherwise the conn and done channel are stored under the name, every other entry is unchanged, and the key-set invariant holds afterwards |
| ConnectionRegistry.Connections.Broadcast | connections.go:116-130 | a send is attempted once to every registered user, and the outbox grows by exactly one send of the given snapshot to each of them; exactly the failed users are removed from conns, done channels and the player list; the new disconnections are exactly the failed former players, each once; the done channel of each failed user is signalled, and the number of new signals is the number of failed users holding a done channel; the rest remain and nothing is added |
| ConnectionRegistry.Connections.SendAll | connections.go:120-129 | the send loop visits every registered username exactly once and collects, without repetition, exactly the users whose send failed |
| ConnectionRegistry.Connections.RemoveDeferred | connections.go:124 | the deferred Remove calls send nothing and delete exactly the failed users; the new disconnections are distinct and are exactly the failed former players; old signals stay as a prefix, the new ones are exactly the failed users' done channels, and there is one new signal per failed user holding a done channel |
| ConnectionRegistry.Connections.RemoveNext | connections.go:52-71 | one deferred Remove of a registered name not yet removed sends nothing and extends the removal state by that name: conn, done channel and player gone, a disconnection recorded once if it was a player, its done channel signalled, and exactly one signal added if it held a done channel, none otherwise |
| ConnectionRegistry.AddTwice | connections.go:94-100 | a second Add of the same name without a Remove fails, and the first session's stream and done channel stay |
| ConnectionRegistry.RemoveTwice | connections.go:52-58 | Remove is idempotent: the first Remove returns whether the name was registered, the second returns false, and together they leave conns, done channels, signals and the player list exactly as one Remove does |
| Server.BuildPlayerEvent | grpc.go:182-203 | copies the username and the type; the position and velocity are set exactly when the player is non-nil |
| Server.EventsFor | grpc.go:212-234 | one event per name, in order, each built from that name's entry in the player map |
| Server.GameStateLayout | grpc.go:205-242 | the snapshot lists one CONNECT per connect, then one DISCONNECT per disconnect, then one UPDATE per update, in order; its length is the sum of the three; its tile updates are the drained queue verbatim |
| Server.UpdatesNotFiltered | grpc.go:222-234 | the UPDATE part of the snapshot is exactly one event per update entry, whether or not the name also connected or disconnected |
| Server.ConnectedNameStillUpdated | grpc.go:222-234 | a name that is in both the connect list and the update list yields a CONNECT event and also an UPDATE event in the same snapshot |
| Server.ConnectAndUpdateInOneTick | grpc.go:222-234 | a name that both connects and updates in one tick yields a CONNECT event and an UPDATE event |
| Server.DisconnectOfRemovedPlayer | grpc.go:217-220 | a DISCONNECT for a player no longer in the map carries no position |
| Server.EmptySnapshotIff | grpc.go:172-180 | the snapshot is empty exactly when the connect, disconnect, update and tile lists are all empty |
| Server.BuildGameState | grpc.go:205-243 | the built snapshot is GameStateOf the player map, the drained buffers, the update list and the drained queue; the buffers and the queue are left empty and the players unchanged |
| Server.BroadcastGameState | grpc.go:172-180 | Broadcast is called exactly when the snapshot has a player event or a tile update; with no call nothing is sent; after a call every registered user is sent exactly this snapshot, once, and nothing else is sent; the tick leaves the recent connections empty; with no call, no session is touched and the disconnections are empty; after a call the failed users are gone from conns, done channels and players, their done channels are signalled, and the disconnections queued for the next tick are exactly the failed former players, each once; the number of new signals is the number of failed users holding a done channel |
| Server.LoadChunk | grpc.go:245-270 | a loaded chunk is returned without changing the world; an unloaded one is first loaded from the store, or generated and stored; the reply is the chunk's encoding with its coordinates, or the encoding error; if the load fails, the world is unchanged and the handler dereferences a nil chunk |
| Server.UpdateTile | grpc.go:272-297 | a chunk that is not loaded gives an error, and no tile is replaced, nothing is persisted and nothing is queued; a nil deserialised tile is a nil dereference with the same lack of effect; otherwise the deserialised tile gets the chunk back-reference and replaces the tile at the tile coordinates, the chunk is persisted, exactly `tu` is appended to the queue, and the reply is an Ack even when the store write fails |
| Server.TileUpdateReachesOneSnapshot | grpc.go:236-240 | an acknowledged tile update appears in the next snapshot once, after the updates queued before it, and the snapshot after that has no tile updates |
| Server.Register | grpc.go:30-33 | a request with an empty username, password or email is refused with the validation message before any account work; otherwise the account step decides the reply |
| Server.Login | grpc.go:67-70 | a request with an empty username or password is refused before any account lookup; otherwise the lookup step decides the reply |
| Engine.World.GetChunk | grpc.go:251 | the loaded chunk at the coordinates, or nil; it never loads or creates one |
| Engine.World.LoadOrCreateChunk | grpc.go:254 | when the load succeeds, loads the stored chunk if there is one, and otherwise generates a chunk and stores it; when it fails, nothing changes |
| Engine.World.ReplaceTile | grpc.go:291 | only the named tile of the named loaded chunk changes |
| Engine.Chunk.ReplaceTile | grpc.go:291 | the result keeps the chunk's coordinates, holds the new tile at the given position, and every other tile is unchanged |
| Engine.World.PersistToDisk | grpc.go:292 | on a successful write the store holds the loaded chunk; on a failed write the store is unchanged and an error is returned |
| Engine.World.constructor | init.go:14-15 | the world starts with no chunk loaded, over the given durable store |
| Engine.ConcurrentQueue.constructor | grpc.go:26-28 | the tile-update queue starts empty |
| Engine.ConcurrentQueue.Push | grpc.go:294 | appends the item to the end of the queue |
| Engine.ConcurrentQueue.Drain | grpc.go:238-240 | returns the queue's items in FIFO order and leaves the queue empty |

## Left out

- Locks and goroutines: the model is sequential. Two hazards in the code are
  not modelled. First, in `Broadcast` the deferred `Remove` calls run before the
  deferred read unlock, because deferred calls run last-in-first-out
  (connections.go:118, 124). So each `Remove` would block on the write lock.
  Second, `AddPlayer` and `RemovePlayer` check under the read lock and then act
  under the write lock (players.go:32-40, 54-61).
- Sending `true` on a done channel blocks until the Connect loop receives it.
  The model only records the signal in `signals`.
- `Babysit` and `Ping` (connections.go:46-50, 77-92), and the goroutine started
  by `Add` (connections.go:111): these are timer-driven liveness monitoring.
- `Connect` and `SendPlayerUpdates` (grpc.go:107-170), `startServer` and
  `configureGrpcOpts` (grpc.go:299-334), and the 60 Hz update loop and signal
  handling in main.go: these are network, timer or OS-signal plumbing.
- Account creation, credential checks and token issuing behind `Register` and
  `Login` (users.go, token.go, db.go): bcrypt, JWT and key-value store calls.
  They are the `proceed` parameter of the guards.
- Configuration and world bootstrap (config.go, init.go). The model's world starts
  as `World{}` after `Init` (init.go:14-15); the seed setting and the start-up
  chunk and boundary generation (init.go:17-20) are not modelled, so no chunk is
  loaded until `LoadChunk` loads it.
- Floating point: vectors are reals, and coordinates are ints. The `float32`
  conversions (grpc.go:194-199, 266) and the coordinate casts (grpc.go:246-247,
  273-276) are not modelled.
- Engine internals are not modelled: chunk encoding, tile deserialisation, tile
  replacement, persistence, chunk loading and generation. `encode`,
  `deserialize`, `generate`, `loadOk` and `storeOk` are parameters. `Chunk.ReplaceTile` is
  a map update with no bounds check. No encode/decode round-trip is claimed.
- Nil `ChunkCoordinates` or `TileCoordinates` sub-messages in a tile update
  (grpc.go:273-276) make the Go handler panic; the model's `TileUpdate` always
  carries both coordinates, so that panic is not modelled.
- ConnectionRegistry.Connections.RemoveDeferred: the order of the new
  disconnections is not stated, only that they are distinct and which names
  they are; `Broadcast` and `BroadcastGameState` inherit this.
- Engine.ConcurrentQueue.Drain: the queue's iteration is assumed to hand out and
  remove every queued item. The engine code is not part
  of this model.
- Engine.World.LoadOrCreateChunk: the load-else-generate-and-store behaviour is
  assumed, with the oracle `loadOk` for a load that fails. The engine code is not part of this model.
- Aliasing of the player map: `GetPlayers` returns Go's shared map and the
  players are pointers. The model uses values, which is enough because
  `buildGameState` does not change the players between reading the map and
  using it.
- Log output and the exact text of the nil-chunk error, which grpc.go:283
  formats with `errors.New(fmt.Sprintf(...))`: `NilChunk` records the
  coordinates instead.
- A nil dereference in Go is a panic, not an error reply. The model returns
  `NilDereference` and does not model what the panic does to the server.

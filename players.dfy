/**
 * The player list of players.go: the connected players by username and two
 * recency buffers (recent connections, recent disconnections) that the
 * broadcast tick drains.
 */
module Players {
  import opened Wrappers
  import opened Engine

  class PlayerList {
    var players: map<string, Player>
    var recentConnections: seq<string>
    var recentDisconnections: seq<string>

    /** newPlayerList: no players, both buffers empty. */
    constructor ()
      ensures players == map[]
      ensures recentConnections == [] && recentDisconnections == []
    {
      players := map[];
      recentConnections := [];
      recentDisconnections := [];
    }

    /**
     * Adds a fresh player under `username`. A taken username is an error and
     * changes nothing; otherwise the name is recorded once as a recent connection.
     */
    method AddPlayer(username: string) returns (err: Option<string>)
      modifies this
      ensures err.Some? <==> username in old(players)
      ensures err.Some? ==> err.value == "username taken."
      ensures err.Some? ==> unchanged(this)
      ensures err.None? ==> players == old(players)[username := NewPlayer]
      ensures err.None? ==> recentConnections == old(recentConnections) + [username]
      ensures err.None? ==> recentDisconnections == old(recentDisconnections)
    {
      if username in players {
        return Some("username taken.");
      }
      players := players[username := NewPlayer];
      recentConnections := recentConnections + [username];
      err := None;
    }

    /**
     * Removes the player `username`; true when it was there, in which case
     * the name is recorded once as a recent disconnection.
     */
    method RemovePlayer(username: string) returns (removed: bool)
      modifies this
      ensures removed <==> username in old(players)
      ensures !removed ==> unchanged(this)
      ensures removed ==> players == old(players) - {username}
      ensures removed ==> recentDisconnections == old(recentDisconnections) + [username]
      ensures recentConnections == old(recentConnections)
    {
      if username !in players {
        return false;
      }
      players := players - {username};
      recentDisconnections := recentDisconnections + [username];
      removed := true;
    }

    /** Hands out both recency buffers as they were and leaves them empty. */
    method GetRecents() returns (connects: seq<string>, disconnects: seq<string>)
      modifies this
      ensures connects == old(recentConnections)
      ensures disconnects == old(recentDisconnections)
      ensures recentConnections == [] && recentDisconnections == []
      ensures players == old(players)
    {
      connects := recentConnections;
      disconnects := recentDisconnections;
      ClearRecents();
    }

    /** clearRecents: both buffers become empty; the players stay. */
    method ClearRecents()
      modifies this
      ensures recentConnections == [] && recentDisconnections == []
      ensures players == old(players)
    {
      recentConnections := [];
      recentDisconnections := [];
    }

    /** The current player map; nothing changes. */
    method GetPlayers() returns (m: map<string, Player>)
      ensures m == players
    {
      m := players;
    }
  }

  /**
   * Two drains with no mutation in between: the first returns the buffers,
   * the second returns nothing.
   */
  method DrainTwice(p: PlayerList)
      returns (c1: seq<string>, d1: seq<string>, c2: seq<string>, d2: seq<string>)
    modifies p
    ensures c1 == old(p.recentConnections) && d1 == old(p.recentDisconnections)
    ensures c2 == [] && d2 == []
    ensures p.players == old(p.players)
  {
    c1, d1 := p.GetRecents();
    c2, d2 := p.GetRecents();
  }
}

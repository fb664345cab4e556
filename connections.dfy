/**
 * The connection registry of connections.go: each connected username's
 * outbound stream and the done channel that ends its Connect call.
 */
module ConnectionRegistry {
  import opened Wrappers
  import opened Players
  import opened Pb
  import opened Engine

  /** A `chan bool` handle; sending `true` on it ends the owner's Connect loop. */
  datatype DoneChan = DoneChan(id: nat)

  ghost predicate Distinct(s: seq<string>)
  {
    forall j, k :: 0 <= j < k < |s| ==> s[j] != s[k]
  }

  /** The set of names occurring in `s`. */
  function Elems(s: seq<string>): set<string>
  {
    set x | x in s
  }

  lemma ElemsAppend(s: seq<string>, x: string)
    ensures Elems(s + [x]) == Elems(s) + {x}
  {
    assert forall y :: y in s + [x] <==> y in s || y == x;
  }

  /** The done channels that `m` holds for the given names. */
  function ChansOf(m: map<string, DoneChan>, names: set<string>): set<DoneChan>
  {
    set u | u in names && u in m :: m[u]
  }

  lemma ChansOfAdd(m: map<string, DoneChan>, names: set<string>, u: string)
    ensures ChansOf(m, {u} + names) == ChansOf(m, names) + (if u in m then {m[u]} else {})
  {
  }

  /** The channels signalled after the first `from` entries of `signals`. */
  function SignalledSince(signals: seq<DoneChan>, from: nat): set<DoneChan>
  {
    set k | from <= k < |signals| :: signals[k]
  }

  lemma SignalledSinceAppend(signals: seq<DoneChan>, from: nat, c: DoneChan)
    requires from <= |signals|
    ensures SignalledSince(signals + [c], from) == SignalledSince(signals, from) + {c}
  {
    var t := signals + [c];
    forall y | y in SignalledSince(t, from)
      ensures y in SignalledSince(signals, from) + {c}
    {
      var k :| from <= k < |t| && t[k] == y;
      if k < |signals| {
        assert signals[k] == y;
      }
    }
    forall y | y in SignalledSince(signals, from) + {c}
      ensures y in SignalledSince(t, from)
    {
      if y == c {
        assert t[|signals|] == c;
      } else {
        var k :| from <= k < |signals| && signals[k] == y;
        assert t[k] == y;
      }
    }
  }

  /** How many entries of `s` are in `keys`. */
  function CountIn(s: seq<string>, keys: set<string>): nat
  {
    if s == [] then 0 else (if s[0] in keys then 1 else 0) + CountIn(s[1..], keys)
  }

  /** For a list without repetition, the count is the number of its names in `keys`. */
  lemma {:induction false} CountInDistinct(s: seq<string>, keys: set<string>)
    requires Distinct(s)
    ensures CountIn(s, keys) == |Elems(s) * keys|
  {
    if s != [] {
      var t := s[1..];
      assert Distinct(t);
      CountInDistinct(t, keys);
      var rest := Elems(t) * keys;
      assert Elems(s) == {s[0]} + Elems(t);
      assert s[0] !in rest;
      if s[0] in keys {
        assert Elems(s) * keys == {s[0]} + rest;
        assert |{s[0]} + rest| == |rest| + 1;
      } else {
        assert Elems(s) * keys == rest;
      }
    }
  }

  /** Removing a set of names from a map only removes the ones it holds. */
  lemma SubtractHeld<V>(m: map<string, V>, names: set<string>)
    ensures m - (names * m.Keys) == m - names
  {
  }

  lemma DistinctAppend(s: seq<string>, x: string)
    requires Distinct(s) && x !in s
    ensures Distinct(s + [x])
  {
  }

  /** One send per name, in the order given, each of the same snapshot `e`. */
  function SendsOf(names: seq<string>, e: GameState): (r: seq<(string, GameState)>)
    ensures |r| == |names|
    ensures forall i :: 0 <= i < |r| ==> r[i] == (names[i], e)
  {
    if names == [] then [] else [(names[0], e)] + SendsOf(names[1..], e)
  }

  class Connections {
    var conns: map<string, ConnectStream>
    var doneChans: map<string, DoneChan>
    /** Every `true` sent on a done channel, in order. */
    var signals: seq<DoneChan>
    /** Every `Send` on a stream, successful or not, in order: the user and the snapshot sent. */
    var outbox: seq<(string, GameState)>
    /** The player list that Remove also updates (engine.PlayerList). */
    const playerList: PlayerList

    /** Every registered username has exactly one done channel and vice versa. */
    ghost predicate Valid()
      reads this
    {
      conns.Keys == doneChans.Keys
    }

    /** NewConnections: an empty registry over the given player list. */
    constructor (playerList: PlayerList)
      ensures Valid()
      ensures conns == map[] && doneChans == map[] && signals == [] && outbox == []
      ensures this.playerList == playerList
    {
      conns := map[];
      doneChans := map[];
      signals := [];
      outbox := [];
      this.playerList := playerList;
    }

    /** The stream registered for `username`, or nil; nothing changes. */
    method Get(username: string) returns (r: Option<ConnectStream>)
      ensures username !in conns ==> r == None
      ensures username in conns ==> r == Some(conns[username])
    {
      if username !in conns {
        return None;
      }
      r := Some(conns[username]);
    }

    /**
     * Unregisters `username`: takes the player off the player list, drops
     * the stream, signals the done channel and drops it. An unregistered
     * name gives false and touches nothing.
     */
    method Remove(username: string) returns (removed: bool)
      modifies this, playerList
      ensures removed <==> username in old(conns)
      ensures outbox == old(outbox)
      ensures !removed ==> unchanged(this) && unchanged(playerList)
      ensures removed ==> conns == old(conns) - {username}
      ensures removed ==> doneChans == old(doneChans) - {username}
      ensures removed ==> signals == old(signals) + (if username in old(doneChans) then [old(doneChans)[username]] else [])
      ensures removed ==> playerList.recentConnections == old(playerList.recentConnections)
      ensures removed && username in old(playerList.players) ==>
                playerList.players == old(playerList.players) - {username} &&
                playerList.recentDisconnections == old(playerList.recentDisconnections) + [username]
      ensures removed && username !in old(playerList.players) ==> unchanged(playerList)
      ensures old(Valid()) ==> Valid()
    {
      if username !in conns {
        return false;
      }
      var _ := playerList.RemovePlayer(username);
      conns := conns - {username};
      if username in doneChans {
        signals := signals + [doneChans[username]];
        doneChans := doneChans - {username};
      }
      removed := true;
    }

    /**
     * Registers `conn` and `doneChan` for `username`. A name that already has
     * a stream is an error and the first session stays as it was.
     */
    method Add(username: string, conn: ConnectStream, doneChan: DoneChan) returns (err: Option<string>)
      modifies this
      ensures err.Some? <==> username in old(conns)
      ensures outbox == old(outbox)
      ensures err.Some? ==> err.value == "already have connection for " + username
      ensures err.Some? ==> unchanged(this)
      ensures err.None? ==> conns == old(conns)[username := conn]
      ensures err.None? ==> doneChans == old(doneChans)[username := doneChan]
      ensures err.None? ==> signals == old(signals) + (if username in old(doneChans) then [old(doneChans)[username]] else [])
      ensures old(Valid()) ==> Valid()
    {
      if username in conns {
        return Some("already have connection for " + username);
      }
      conns := conns[username := conn];
      if username in doneChans {
        signals := signals + [doneChans[username]];
        doneChans := doneChans - {username};
      }
      doneChans := doneChans[username := doneChan];
      err := None;
    }

    /**
     * Sends `event` to every registered stream, in the map's arbitrary
     * order, recording each send in `outbox`; `sendFails` names the users
     * whose send fails. Those users are removed after the loop by deferred
     * calls; everyone else stays. Returns the users a send was attempted to.
     */
    method Broadcast(event: GameState, sendFails: set<string>) returns (attempted: seq<string>)
      modifies this, playerList
      ensures Distinct(attempted) && Elems(attempted) == old(conns).Keys
      ensures outbox == old(outbox) + SendsOf(attempted, event)
      ensures conns == old(conns) - sendFails
      ensures doneChans == old(doneChans) - (sendFails * old(conns).Keys)
      ensures playerList.players == old(playerList.players) - (sendFails * old(conns).Keys)
      ensures playerList.recentConnections == old(playerList.recentConnections)
      ensures |playerList.recentDisconnections| >= |old(playerList.recentDisconnections)|
      ensures playerList.recentDisconnections[..|old(playerList.recentDisconnections)|] == old(playerList.recentDisconnections)
      ensures Elems(playerList.recentDisconnections[|old(playerList.recentDisconnections)|..])
              == sendFails * old(conns).Keys * old(playerList.players).Keys
      ensures Distinct(playerList.recentDisconnections[|old(playerList.recentDisconnections)|..])
      ensures |signals| >= |old(signals)| && signals[..|old(signals)|] == old(signals)
      ensures SignalledSince(signals, |old(signals)|) == ChansOf(old(doneChans), sendFails * old(conns).Keys)
      ensures |signals| == |old(signals)| + |sendFails * old(conns).Keys * old(doneChans).Keys|
      ensures old(Valid()) ==> Valid()
    {
      var failed;
      attempted, failed := SendAll(event, sendFails);
      CountInDistinct(failed, doneChans.Keys);
      assert Elems(failed) * doneChans.Keys == sendFails * conns.Keys * doneChans.Keys;
      outbox := outbox + SendsOf(attempted, event);
      assert conns == old(conns) && doneChans == old(doneChans) && signals == old(signals);
      RemoveDeferred(failed);
      SubtractHeld(old(conns), sendFails);
    }

    /**
     * The send loop of Broadcast: one send attempt per registered user, in
     * arbitrary order, collecting the users whose send failed in the order
     * their removal was deferred. Nothing changes.
     */
    method SendAll(event: GameState, sendFails: set<string>) returns (attempted: seq<string>, failed: seq<string>)
      ensures Distinct(attempted) && Elems(attempted) == conns.Keys
      ensures Distinct(failed) && Elems(failed) == sendFails * conns.Keys
    {
      var pending := conns.Keys;
      failed := [];
      attempted := [];
      while pending != {}
        invariant pending <= conns.Keys
        invariant Elems(attempted) + pending == conns.Keys
        invariant Elems(attempted) !! pending
        invariant Distinct(attempted)
        invariant Distinct(failed)
        invariant Elems(failed) == Elems(attempted) * sendFails
        decreases pending
      {
        var u :| u in pending;
        assert u !in Elems(failed);
        ElemsAppend(attempted, u);
        ElemsAppend(failed, u);
        attempted := attempted + [u];
        if u in sendFails {
          failed := failed + [u];
        }
        pending := pending - {u};
      }
    }

    /**
     * The deferred Remove calls of Broadcast, one per failed user; the
     * contract does not fix the order of the disconnections they record.
     */
    method RemoveDeferred(failed: seq<string>)
      requires Distinct(failed) && Elems(failed) <= conns.Keys
      modifies this, playerList
      ensures outbox == old(outbox)
      ensures conns == old(conns) - Elems(failed)
      ensures doneChans == old(doneChans) - Elems(failed)
      ensures playerList.players == old(playerList.players) - Elems(failed)
      ensures playerList.recentConnections == old(playerList.recentConnections)
      ensures |playerList.recentDisconnections| >= |old(playerList.recentDisconnections)|
      ensures playerList.recentDisconnections[..|old(playerList.recentDisconnections)|] == old(playerList.recentDisconnections)
      ensures Elems(playerList.recentDisconnections[|old(playerList.recentDisconnections)|..])
              == Elems(failed) * old(playerList.players).Keys
      ensures Distinct(playerList.recentDisconnections[|old(playerList.recentDisconnections)|..])
      ensures |signals| >= |old(signals)| && signals[..|old(signals)|] == old(signals)
      ensures SignalledSince(signals, |old(signals)|) == ChansOf(old(doneChans), Elems(failed))
      ensures |signals| == |old(signals)| + CountIn(failed, old(doneChans).Keys)
      ensures old(Valid()) ==> Valid()
    {
      ghost var C0, D0, P0 := conns, doneChans, playerList.players;
      ghost var RD0 := playerList.recentDisconnections;
      ghost var S0 := signals;
      var i := |failed|;
      while i > 0
        invariant 0 <= i <= |failed|
        invariant RemovedSoFar(C0, D0, P0, RD0, S0, Elems(failed[i..]))
        invariant |signals| == |S0| + CountIn(failed[i..], D0.Keys)
        invariant playerList.recentConnections == old(playerList.recentConnections)
        invariant outbox == old(outbox)
        invariant old(Valid()) ==> Valid()
      {
        i := i - 1;
        var u := failed[i];
        assert failed[i..] == [u] + failed[i + 1..];
        assert Elems(failed[i..]) == {u} + Elems(failed[i + 1..]);
        RemoveNext(u, C0, D0, P0, RD0, S0, Elems(failed[i + 1..]));
      }
      assert failed[0..] == failed;
    }

    /**
     * The state after the deferred removal of the names in `done`, starting
     * from registry C0/D0, players P0, disconnections RD0 and signals S0.
     */
    ghost predicate RemovedSoFar(C0: map<string, ConnectStream>, D0: map<string, DoneChan>,
                                 P0: map<string, Player>, RD0: seq<string>, S0: seq<DoneChan>, done: set<string>)
      reads this, playerList
    {
      && conns == C0 - done
      && doneChans == D0 - done
      && playerList.players == P0 - done
      && |playerList.recentDisconnections| >= |RD0|
      && playerList.recentDisconnections[..|RD0|] == RD0
      && Elems(playerList.recentDisconnections[|RD0|..]) == done * P0.Keys
      && Distinct(playerList.recentDisconnections[|RD0|..])
      && |signals| >= |S0| && signals[..|S0|] == S0
      && SignalledSince(signals, |S0|) == ChansOf(D0, done)
    }

    /** One deferred Remove, of a registered name not yet removed. */
    method RemoveNext(u: string, ghost C0: map<string, ConnectStream>, ghost D0: map<string, DoneChan>,
                      ghost P0: map<string, Player>, ghost RD0: seq<string>, ghost S0: seq<DoneChan>,
                      ghost done: set<string>)
      requires RemovedSoFar(C0, D0, P0, RD0, S0, done)
      requires u in C0 && u !in done
      modifies this, playerList
      ensures RemovedSoFar(C0, D0, P0, RD0, S0, {u} + done)
      ensures |signals| == |old(signals)| + (if u in D0 then 1 else 0)
      ensures outbox == old(outbox)
      ensures playerList.recentConnections == old(playerList.recentConnections)
      ensures old(Valid()) ==> Valid()
    {
      ghost var rd := playerList.recentDisconnections;
      ghost var sg := signals;
      assert u !in Elems(rd[|RD0|..]);
      assert u in D0 <==> u in doneChans;
      var _ := Remove(u);
      if u in P0 {
        ElemsAppend(rd[|RD0|..], u);
        DistinctAppend(rd[|RD0|..], u);
        assert playerList.recentDisconnections[|RD0|..] == rd[|RD0|..] + [u];
      }
      if u in D0 {
        assert signals == sg + [D0[u]];
        SignalledSinceAppend(sg, |S0|, D0[u]);
      } else {
        assert signals == sg;
      }
      ChansOfAdd(D0, done, u);
    }
  }

  /** Registering the same name twice without a Remove in between fails and keeps the first session. */
  method AddTwice(c: Connections, username: string, first: ConnectStream, firstDone: DoneChan,
                  second: ConnectStream, secondDone: DoneChan)
      returns (err1: Option<string>, err2: Option<string>)
    requires c.Valid() && username !in c.conns
    modifies c
    ensures err1 == None && err2.Some?
    ensures username in c.conns && c.conns[username] == first
    ensures username in c.doneChans && c.doneChans[username] == firstDone
    ensures c.outbox == old(c.outbox)
    ensures c.Valid()
  {
    err1 := c.Add(username, first, firstDone);
    err2 := c.Add(username, second, secondDone);
  }

  /** Cleanup is idempotent: two Removes of one name have the effect of one, and the second returns false. */
  method RemoveTwice(c: Connections, username: string) returns (r1: bool, r2: bool)
    requires c.Valid()
    modifies c, c.playerList
    ensures r1 == (username in old(c.conns))
    ensures !r2
    ensures c.conns == old(c.conns) - {username} && c.doneChans == old(c.doneChans) - {username}
    ensures c.signals == old(c.signals) + (if r1 then [old(c.doneChans)[username]] else [])
    ensures c.playerList.players == if r1 then old(c.playerList.players) - {username} else old(c.playerList.players)
    ensures c.outbox == old(c.outbox)
    ensures c.playerList.recentConnections == old(c.playerList.recentConnections)
    ensures c.playerList.recentDisconnections
            == old(c.playerList.recentDisconnections)
               + (if r1 && username in old(c.playerList.players) then [username] else [])
    ensures c.Valid()
  {
    r1 := c.Remove(username);
    ghost var mid, midPlayers := c.conns, c.playerList.players;
    r2 := c.Remove(username);
    assert c.conns == mid && c.playerList.players == midPlayers;
  }
}

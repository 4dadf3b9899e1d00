/**
 * The host/viewer session of one endpoint, as a state machine over an
 * abstract transport. The endpoint first tries to claim the room's peer id;
 * whoever gets it is the host and holds one connection per viewer, everyone
 * else is a viewer with a single upstream connection to the host. The
 * transport's events (open, error, connection, data, close) are methods;
 * what the endpoint sends is appended to `outbox` as (connection id,
 * message) pairs, and `localStorage` is the map `store`.
 */
module GameSync {
  import opened Types
  import Constants

  const PeerPrefix := "pst-v3-room-"
  const StoragePrefix := "pst_session_"

  /** The peer id the host of a room claims. */
  function PeerId(roomId: string): (r: string)
    ensures |r| == |PeerPrefix| + |roomId| && r[..|PeerPrefix|] == PeerPrefix && r[|PeerPrefix|..] == roomId
  {
    PeerPrefix + roomId
  }

  /** The storage key a room's data lives under. */
  function StorageKey(roomId: string): (r: string)
    ensures |r| == |StoragePrefix| + |roomId| && r[..|StoragePrefix|] == StoragePrefix && r[|StoragePrefix|..] == roomId
  {
    StoragePrefix + roomId
  }

  /** Distinct rooms use distinct peer ids and storage keys. */
  lemma KeysSeparateRooms(a: string, b: string)
    requires a != b
    ensures PeerId(a) != PeerId(b) && StorageKey(a) != StorageKey(b)
  {
    assert PeerId(a)[|PeerPrefix|..] == a;
    assert StorageKey(a)[|StoragePrefix|..] == a;
  }

  /** A transport connection: its id and whether it is open. */
  datatype Conn = Conn(id: int, open: bool)

  /** One `conn.send(msg)`. */
  datatype Outgoing = Outgoing(conn: int, msg: P2PMessage)

  /** The sends `broadcast(msg)` makes: one per open connection, in list order. */
  function Deliveries(cs: seq<Conn>, msg: P2PMessage): seq<Outgoing> {
    if cs == [] then []
    else Deliveries(cs[..|cs| - 1], msg) + (if cs[|cs| - 1].open then [Outgoing(cs[|cs| - 1].id, msg)] else [])
  }

  /** `broadcast` reaches exactly the open connections, with the message unchanged. */
  lemma {:induction false} DeliveriesExactlyOpen(cs: seq<Conn>, msg: P2PMessage)
    ensures forall o :: o in Deliveries(cs, msg) <==> o.msg == msg && Conn(o.conn, true) in cs
    ensures |Deliveries(cs, msg)| == |OpenOnly(cs)|
  {
    if cs != [] {
      var n := |cs| - 1;
      DeliveriesExactlyOpen(cs[..n], msg);
      assert cs == cs[..n] + [cs[n]];
    }
  }

  /** The open connections, in order. */
  function OpenOnly(cs: seq<Conn>): seq<Conn> {
    if cs == [] then []
    else OpenOnly(cs[..|cs| - 1]) + (if cs[|cs| - 1].open then [cs[|cs| - 1]] else [])
  }

  /** `filter(c => c !== conn)` on connection ids. */
  function WithoutConn(cs: seq<Conn>, id: int): (r: seq<Conn>)
    ensures forall c :: c in r <==> c in cs && c.id != id
    ensures |r| <= |cs|
  {
    if cs == [] then []
    else
      var n := |cs| - 1;
      assert cs == cs[..n] + [cs[n]];
      WithoutConn(cs[..n], id) + (if cs[n].id != id then [cs[n]] else [])
  }

  /** The error types that mean the browser cannot run the transport at all. */
  predicate IsPermissionError(errType: string) {
    errType == "browser-incompatible" || errType == "ssl-unavailable"
  }

  class Session {
    var roomId: string
    var gameData: GameData
    var isOnline: bool
    var isLoadingRoom: bool
    var isHost: bool
    var peerCount: nat
    var syncing: bool
    var permissionError: bool
    var lastReaction: Option<Reaction>
    var pendingCommand: Option<RemoteCommand>
    /** Whether the current peer was created claiming the room's peer id. */
    var attemptHost: bool
    var connections: seq<Conn>
    var outbox: seq<Outgoing>
    var store: map<string, GameData>

    /**
     * The initial state: the room's stored data if there is any, otherwise
     * the default template; loading, offline, not host.
     */
    constructor(roomId: string, store: map<string, GameData>)
      ensures this.roomId == roomId && this.store == store
      ensures gameData == if StorageKey(roomId) in store then store[StorageKey(roomId)] else Constants.DefaultGameData()
      ensures isLoadingRoom && !isOnline && !isHost && !permissionError && !syncing
      ensures peerCount == 0 && connections == [] && outbox == []
      ensures lastReaction == None && pendingCommand == None
    {
      this.roomId := roomId;
      this.store := store;
      var key := StorageKey(roomId);
      gameData := if key in store then store[key] else Constants.DefaultGameData();
      isOnline := false;
      isLoadingRoom := true;
      isHost := false;
      peerCount := 0;
      syncing := false;
      permissionError := false;
      lastReaction := None;
      pendingCommand := None;
      attemptHost := false;
      connections := [];
      outbox := [];
    }

    /**
     * The session effect: reset the role and the connections, then either
     * fall back to an offline host when no transport is available or create a
     * peer that claims the room's id.
     */
    method Start(transportAvailable: bool)
      modifies this
      ensures connections == [] && peerCount == 0 && !isOnline && !permissionError
      ensures !transportAvailable ==> isHost && !isLoadingRoom && attemptHost == old(attemptHost)
      ensures transportAvailable ==> !isHost && isLoadingRoom && attemptHost
      ensures gameData == old(gameData) && store == old(store) && outbox == old(outbox) && roomId == old(roomId)
      ensures lastReaction == old(lastReaction) && pendingCommand == old(pendingCommand) && syncing == old(syncing)
    {
      isLoadingRoom := true;
      isOnline := false;
      isHost := false;
      permissionError := false;
      connections := [];
      peerCount := 0;
      if !transportAvailable {
        isLoadingRoom := false;
        isHost := true;
        return;
      }
      attemptHost := true;
    }

    /**
     * The peer's `open` event with the id the transport assigned. The room's
     * own id makes this endpoint the host, online, with the stored snapshot
     * loaded if there is one; any other id makes it a viewer whose only
     * connection, `upstream`, goes to the room's id.
     */
    method OnOpen(id: string, upstream: int)
      modifies this
      ensures id == PeerId(roomId) ==>
        isHost && isOnline && !isLoadingRoom && connections == old(connections) &&
        gameData == (if StorageKey(roomId) in store then store[StorageKey(roomId)] else old(gameData))
      ensures id != PeerId(roomId) ==>
        !isHost && isOnline == old(isOnline) && isLoadingRoom == old(isLoadingRoom) &&
        connections == [Conn(upstream, false)] && gameData == old(gameData)
      ensures store == old(store) && outbox == old(outbox) && roomId == old(roomId) && peerCount == old(peerCount)
      ensures lastReaction == old(lastReaction) && pendingCommand == old(pendingCommand)
      ensures permissionError == old(permissionError) && attemptHost == old(attemptHost) && syncing == old(syncing)
    {
      if id == PeerId(roomId) {
        isHost := true;
        isOnline := true;
        isLoadingRoom := false;
        var key := StorageKey(roomId);
        if key in store {
          gameData := store[key];
        }
      } else {
        isHost := false;
        connections := [Conn(upstream, false)];
      }
    }

    /**
     * The peer's `error` event: a taken id makes the endpoint retry as a
     * peer that does not claim it; any other error leaves it an offline host,
     * flagging the two errors that mean the browser cannot connect at all.
     */
    method OnError(errType: string)
      modifies this
      ensures errType == "unavailable-id" ==>
        !attemptHost && isHost == old(isHost) && isOnline == old(isOnline) &&
        isLoadingRoom == old(isLoadingRoom) && permissionError == old(permissionError)
      ensures errType != "unavailable-id" ==>
        isHost && !isOnline && !isLoadingRoom && attemptHost == old(attemptHost) &&
        permissionError == (old(permissionError) || IsPermissionError(errType))
      ensures gameData == old(gameData) && store == old(store) && outbox == old(outbox) && roomId == old(roomId)
      ensures connections == old(connections) && peerCount == old(peerCount)
      ensures lastReaction == old(lastReaction) && pendingCommand == old(pendingCommand) && syncing == old(syncing)
    {
      if errType == "unavailable-id" {
        attemptHost := false;
      } else {
        if IsPermissionError(errType) {
          permissionError := true;
        }
        isOnline := false;
        isLoadingRoom := false;
        isHost := true;
      }
    }

    /**
     * The host's `connection` event: remember the connection, count it, and
     * send it the stored snapshot if there is one.
     */
    method OnConnection(c: Conn)
      modifies this`connections, this`peerCount, this`outbox
      ensures connections == old(connections) + [c]
      ensures peerCount == old(peerCount) + 1
      ensures outbox == old(outbox) +
        (if StorageKey(roomId) in store then [Outgoing(c.id, GameDataMsg(store[StorageKey(roomId)]))] else [])
    {
      connections := connections + [c];
      peerCount := peerCount + 1;
      var key := StorageKey(roomId);
      if key in store {
        outbox := outbox + [Outgoing(c.id, GameDataMsg(store[key]))];
      }
    }

    /** The transport opening or closing a connection's channel. */
    method SetOpen(id: int, open: bool)
      modifies this`connections
      ensures |connections| == |old(connections)|
      ensures forall k :: 0 <= k < |connections| ==>
        connections[k] == if old(connections)[k].id == id then Conn(id, open) else old(connections)[k]
    {
      var cs := connections;
      connections := seq(|cs|, k requires 0 <= k < |cs| => if cs[k].id == id then Conn(id, open) else cs[k]);
    }

    /**
     * `broadcast`: one send per open connection, in list order, and none to
     * a connection that is not open.
     */
    method Broadcast(msg: P2PMessage)
      modifies this`outbox
      ensures outbox == old(outbox) + Deliveries(connections, msg)
    {
      var i := 0;
      while i < |connections|
        invariant 0 <= i <= |connections|
        invariant outbox == old(outbox) + Deliveries(connections[..i], msg)
      {
        assert connections[..i + 1][..i] == connections[..i];
        if connections[i].open {
          outbox := outbox + [Outgoing(connections[i].id, msg)];
        }
        i := i + 1;
      }
      assert connections[..|connections|] == connections;
    }

    /**
     * Data arriving on one of the host's connections: a REACTION is shown
     * and relayed to every open connection, the sender's included; a COMMAND
     * overwrites the single pending slot; GAME_DATA is ignored.
     */
    method OnDownstreamData(msg: P2PMessage)
      modifies this`lastReaction, this`pendingCommand, this`outbox
      ensures msg.ReactionMsg? ==>
        lastReaction == Some(msg.reaction) && pendingCommand == old(pendingCommand) &&
        outbox == old(outbox) + Deliveries(connections, msg)
      ensures msg.CommandMsg? ==>
        pendingCommand == Some(msg.command) && lastReaction == old(lastReaction) && outbox == old(outbox)
      ensures msg.GameDataMsg? ==>
        lastReaction == old(lastReaction) && pendingCommand == old(pendingCommand) && outbox == old(outbox)
    {
      match msg
      case ReactionMsg(r) =>
        lastReaction := Some(r);
        Broadcast(msg);
      case CommandMsg(cmd) =>
        pendingCommand := Some(cmd);
      case GameDataMsg(_) =>
    }

    /** A downstream connection closing: drop it and count it out, never below zero. */
    method OnDownstreamClose(id: int)
      modifies this`connections, this`peerCount
      ensures connections == WithoutConn(old(connections), id)
      ensures peerCount == if old(peerCount) - 1 > 0 then old(peerCount) - 1 else 0
    {
      connections := WithoutConn(connections, id);
      peerCount := if peerCount - 1 > 0 then peerCount - 1 else 0;
    }

    /** The viewer's upstream connection opening. */
    method OnUpstreamOpen()
      modifies this`isOnline, this`isLoadingRoom
      ensures isOnline && !isLoadingRoom
    {
      isOnline := true;
      isLoadingRoom := false;
    }

    /**
     * Data arriving from the host: GAME_DATA replaces the whole document and
     * is stored under the room key; a REACTION is shown; a COMMAND is ignored.
     */
    method OnUpstreamData(msg: P2PMessage)
      modifies this`gameData, this`store, this`syncing, this`lastReaction
      ensures msg.GameDataMsg? ==>
        gameData == msg.data && store == old(store)[StorageKey(roomId) := msg.data] && syncing &&
        lastReaction == old(lastReaction)
      ensures msg.ReactionMsg? ==>
        lastReaction == Some(msg.reaction) && gameData == old(gameData) && store == old(store) && syncing == old(syncing)
      ensures msg.CommandMsg? ==>
        lastReaction == old(lastReaction) && gameData == old(gameData) && store == old(store) && syncing == old(syncing)
    {
      match msg
      case GameDataMsg(data) =>
        syncing := true;
        gameData := data;
        store := store[StorageKey(roomId) := data];
      case ReactionMsg(r) =>
        lastReaction := Some(r);
      case CommandMsg(_) =>
    }

    /** The viewer's upstream connection closing. */
    method OnUpstreamClose()
      modifies this`isOnline
      ensures !isOnline
    {
      isOnline := false;
    }

    /** The `setTimeout` that ends the syncing indicator. */
    method SyncSettled()
      modifies this`syncing
      ensures !syncing
    {
      syncing := false;
    }

    /**
     * `handleUpdate`: install and store the new document; an online host also
     * broadcasts it to every open connection.
     */
    method HandleUpdate(newData: GameData)
      modifies this`gameData, this`store, this`syncing, this`outbox
      ensures gameData == newData && store == old(store)[StorageKey(roomId) := newData]
      ensures isHost && isOnline ==> syncing && outbox == old(outbox) + Deliveries(connections, GameDataMsg(newData))
      ensures !(isHost && isOnline) ==> syncing == old(syncing) && outbox == old(outbox)
    {
      gameData := newData;
      store := store[StorageKey(roomId) := newData];
      if isHost && isOnline {
        syncing := true;
        Broadcast(GameDataMsg(newData));
      }
    }

    /**
     * `sendReaction`: show it locally first; the host broadcasts it, an
     * online viewer sends it upstream, anyone else keeps it to themselves.
     */
    method SendReaction(emoji: string, now: int)
      modifies this`lastReaction, this`outbox
      ensures lastReaction == Some(Reaction(emoji, now))
      ensures isHost ==> outbox == old(outbox) + Deliveries(connections, ReactionMsg(Reaction(emoji, now)))
      ensures !isHost && isOnline && connections != [] ==>
        outbox == old(outbox) + [Outgoing(connections[0].id, ReactionMsg(Reaction(emoji, now)))]
      ensures !isHost && !(isOnline && connections != []) ==> outbox == old(outbox)
    {
      var payload := Reaction(emoji, now);
      lastReaction := Some(payload);
      var msg := ReactionMsg(payload);
      if isHost {
        Broadcast(msg);
      } else if isOnline && connections != [] {
        outbox := outbox + [Outgoing(connections[0].id, msg)];
      }
    }

    /**
     * `sendCommand`: only an online viewer sends, and only upstream; the
     * document is never touched.
     */
    method SendCommand(cmd: RemoteCommand)
      modifies this`outbox
      ensures isOnline && !isHost && connections != [] ==>
        outbox == old(outbox) + [Outgoing(connections[0].id, CommandMsg(cmd))]
      ensures !(isOnline && !isHost && connections != []) ==> outbox == old(outbox)
    {
      if !isOnline || isHost {
        return;
      }
      if connections != [] {
        outbox := outbox + [Outgoing(connections[0].id, CommandMsg(cmd))];
      }
    }
  }

  /** Two commands in a row leave only the second one pending. */
  method CommandsOverwrite(s: Session, first: RemoteCommand, second: RemoteCommand)
    modifies s
    ensures s.pendingCommand == Some(second)
    ensures s.outbox == old(s.outbox) && s.gameData == old(s.gameData)
  {
    s.OnDownstreamData(CommandMsg(first));
    s.OnDownstreamData(CommandMsg(second));
  }
}

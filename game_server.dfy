/** The game server: per-connection dispatch of incoming messages, the join
    handshake run later on the simulation thread, disconnect cleanup, and the
    world-listener callbacks that turn registry changes into broadcasts.

    The transport is an outbox: `source.send(m)` appends one delivery and
    `server.broadcast` appends one delivery per connected recipient. The
    transport promises no order among recipients; the model lists them in the
    order of the connection list, and every property proved about deliveries
    is per recipient (MessagesTo), so nothing depends on that choice. `app.enqueue` appends a join task to a FIFO
    that RunNextTask drains one task at a time. */
module GameServer {
  import opened Descriptors
  import opened Registry
  import opened Messages

  /** Identity of a hosted connection. */
  type ConnId = nat

  /** The attributes the server sets on a connection; each is absent until set. */
  datatype Attributes = Attributes(playerName: Option<string>, identified: Option<bool>, playerId: Option<int>)

  const NoAttributes := Attributes(None, None, None)

  /** One message handed to the transport for one recipient. */
  datatype Delivery = Delivery(to: ConnId, msg: Message)

  /** A world message the server applied, and the connection it came from. */
  datatype Application = Application(source: ConnId, msg: Message)

  /** The work `messageReceived` enqueues for an identification: the
      connection and the name the message carried. */
  datatype JoinTask = JoinTask(source: ConnId, playerName: string)

  /** How `messageReceived` ends: normally; by unboxing the absent "Identified"
      attribute (a NullPointerException); or with the registry refusing an
      AddGameObjectMessage whose id is taken. */
  datatype Outcome = Handled | AbsentIdentified | IdTaken

  /** Objects `initObstacles` adds in its loop. */
  const ObstacleCount: nat := 200

  const Ground := GameObject(Some(StaticPhysicsLogic), Some(GroundModel))
  const Obstacle := GameObject(Some(ObstacleLogic), Some(ObstacleModel))
  /** The join task's player node has a ModelControl and no LogicControl. */
  const PlayerObject := GameObject(None, Some(PlayerModel))

  predicate Distinct<T(==)>(s: seq<T>)
  {
    forall i, j :: 0 <= i < j < |s| ==> s[i] != s[j]
  }

  /** `ArrayList.remove(Object)`: drop the first occurrence, if any. */
  function RemoveFirst<T(==)>(s: seq<T>, x: T): (r: seq<T>)
    ensures x in s ==> |r| == |s| - 1 && multiset(r) == multiset(s) - multiset{x}
    ensures x !in s ==> r == s
    ensures forall y :: y in r ==> y in s
    decreases |s|
  {
    if s == [] then []
    else
      assert s == [s[0]] + s[1..];
      if s[0] == x then s[1..]
      else [s[0]] + RemoveFirst(s[1..], x)
  }

  lemma {:induction false} RemoveFirstDistinct<T>(s: seq<T>, x: T)
    requires Distinct(s)
    ensures Distinct(RemoveFirst(s, x)) && x !in RemoveFirst(s, x)
    decreases |s|
  {
    if s != [] && s[0] != x {
      assert Distinct(s[1..]) by {
        forall i, j | 0 <= i < j < |s[1..]| ensures s[1..][i] != s[1..][j] {
          assert s[1..][i] == s[i + 1] && s[1..][j] == s[j + 1];
        }
      }
      RemoveFirstDistinct(s[1..], x);
      var rest := RemoveFirst(s[1..], x);
      assert s[0] !in s[1..] by {
        forall k | 0 <= k < |s[1..]| ensures s[1..][k] != s[0] {
          assert s[1..][k] == s[k + 1];
        }
      }
      assert s[0] !in rest;
      var r := [s[0]] + rest;
      forall i, j | 0 <= i < j < |r| ensures r[i] != r[j] {
        if i == 0 {
          assert r[j] == rest[j - 1];
        } else {
          assert r[i] == rest[i - 1] && r[j] == rest[j - 1];
        }
      }
    } else if s != [] {
      assert s[0] !in s[1..] by {
        forall k | 0 <= k < |s[1..]| ensures s[1..][k] != s[0] {
          assert s[1..][k] == s[k + 1];
        }
      }
      forall i, j | 0 <= i < j < |s[1..]| ensures s[1..][i] != s[1..][j] {
        assert s[1..][i] == s[i + 1] && s[1..][j] == s[j + 1];
      }
    }
  }

  /** `server.broadcast(Filters.notEqualTo(except), m)` (or, with `except` None,
      `server.broadcast(m)`): one delivery of m to every connection but the
      excluded one, and to nobody else. */
  function Fanout(conns: seq<ConnId>, except: Option<ConnId>, m: Message): (r: seq<Delivery>)
    decreases |conns|
  {
    if conns == [] then []
    else (if Some(conns[0]) == except then [] else [Delivery(conns[0], m)]) + Fanout(conns[1..], except, m)
  }

  /** A broadcast carries m, only to connections in the list other than the
      excluded one, and reaches every one of those. */
  lemma {:induction false} FanoutRecipients(conns: seq<ConnId>, except: Option<ConnId>, m: Message)
    ensures var r := Fanout(conns, except, m);
      forall i :: 0 <= i < |r| ==> r[i].msg == m && r[i].to in conns && Some(r[i].to) != except
    ensures forall c :: c in conns && Some(c) != except ==> Delivery(c, m) in Fanout(conns, except, m)
    decreases |conns|
  {
    if conns != [] {
      FanoutRecipients(conns[1..], except, m);
      assert conns == [conns[0]] + conns[1..];
      var head := if Some(conns[0]) == except then [] else [Delivery(conns[0], m)];
      var r := Fanout(conns, except, m);
      assert r == head + Fanout(conns[1..], except, m);
      forall i | 0 <= i < |r| ensures r[i].msg == m && r[i].to in conns && Some(r[i].to) != except {
        if i >= |head| {
          assert r[i] == Fanout(conns[1..], except, m)[i - |head|];
        }
      }
    }
  }

  /** The messages delivered to connection c, in order. */
  function MessagesTo(out: seq<Delivery>, c: ConnId): (r: seq<Message>)
    decreases |out|
  {
    if out == [] then [] else (if out[0].to == c then [out[0].msg] else []) + MessagesTo(out[1..], c)
  }

  lemma {:induction false} MessagesToAppend(a: seq<Delivery>, b: seq<Delivery>, c: ConnId)
    ensures MessagesTo(a + b, c) == MessagesTo(a, c) + MessagesTo(b, c)
    decreases |a|
  {
    if a == [] {
      assert a + b == b;
    } else {
      var head := if a[0].to == c then [a[0].msg] else [];
      assert (a + b)[0] == a[0] && (a + b)[1..] == a[1..] + b;
      assert MessagesTo(a + b, c) == head + MessagesTo(a[1..] + b, c);
      MessagesToAppend(a[1..], b, c);
      assert MessagesTo(a, c) == head + MessagesTo(a[1..], c);
    }
  }

  /** Over distinct connections, a broadcast reaches each included connection
      exactly once and the excluded one (and any stranger) never. */
  lemma {:induction false} FanoutReachesEachOnce(conns: seq<ConnId>, except: Option<ConnId>, m: Message, c: ConnId)
    requires Distinct(conns)
    ensures MessagesTo(Fanout(conns, except, m), c) == if c in conns && Some(c) != except then [m] else []
    decreases |conns|
  {
    if conns != [] {
      var head := if Some(conns[0]) == except then [] else [Delivery(conns[0], m)];
      var tail := conns[1..];
      assert Distinct(tail) by {
        forall i, j | 0 <= i < j < |tail| ensures tail[i] != tail[j] {
          assert tail[i] == conns[i + 1] && tail[j] == conns[j + 1];
        }
      }
      MessagesToAppend(head, Fanout(tail, except, m), c);
      FanoutReachesEachOnce(tail, except, m, c);
      assert MessagesTo(head, c) == if conns[0] == c && Some(c) != except then [m] else [] by {
        if head != [] { assert head[1..] == []; }
      }
      if conns[0] == c {
        assert c !in tail by {
          forall k | 0 <= k < |tail| ensures tail[k] != c {
            assert tail[k] == conns[k + 1];
          }
        }
      } else {
        assert c in conns <==> c in tail by {
          assert conns == [conns[0]] + tail;
        }
      }
    }
  }

  /** Everything the join task hands to the transport, in order: the world
      snapshot to the source, the add-listener's broadcast of the new player
      object to everyone, the player's logic and its id to the source, and the
      new-player notice to everyone but the source. */
  function JoinDeliveries(conns: seq<ConnId>, snapshot: map<int, GameObject>, t: JoinTask, id: int): (r: seq<Delivery>)
  {
    [Delivery(t.source, InitWorld(snapshot))]
    + Fanout(conns, None, AddGameObject(FromGameObject(PlayerObject, id)))
    + [Delivery(t.source, UpdateLogic(PlayerLogic, id)), Delivery(t.source, SetPlayer(id))]
    + Fanout(conns, Some(t.source), NewPlayer(t.playerName, id))
  }

  /** The joining connection receives, in this order, the snapshot, the
      announcement of its own player object, that object's logic, and its
      player id, all about the same id; no new-player notice. If it has
      disconnected before the task ran, the broadcast no longer reaches it. */
  lemma JoinSequenceAtSource(conns: seq<ConnId>, snapshot: map<int, GameObject>, t: JoinTask, id: int)
    requires Distinct(conns)
    ensures MessagesTo(JoinDeliveries(conns, snapshot, t, id), t.source) ==
      if t.source in conns then
        [InitWorld(snapshot), AddGameObject(FromGameObject(PlayerObject, id)), UpdateLogic(PlayerLogic, id), SetPlayer(id)]
      else
        [InitWorld(snapshot), UpdateLogic(PlayerLogic, id), SetPlayer(id)]
  {
    JoinMessagesTo(conns, snapshot, t, id, t.source);
  }

  /** Every other connection receives the announcement of the new player object
      and then the new-player notice with the joining name and the same id. */
  lemma JoinSequenceAtOthers(conns: seq<ConnId>, snapshot: map<int, GameObject>, t: JoinTask, id: int, c: ConnId)
    requires Distinct(conns) && c in conns && c != t.source
    ensures MessagesTo(JoinDeliveries(conns, snapshot, t, id), c) ==
      [AddGameObject(FromGameObject(PlayerObject, id)), NewPlayer(t.playerName, id)]
  {
    JoinMessagesTo(conns, snapshot, t, id, c);
  }

  lemma JoinMessagesTo(conns: seq<ConnId>, snapshot: map<int, GameObject>, t: JoinTask, id: int, c: ConnId)
    requires Distinct(conns)
    ensures MessagesTo(JoinDeliveries(conns, snapshot, t, id), c) ==
      (if c == t.source then [InitWorld(snapshot)] else [])
      + (if c in conns then [AddGameObject(FromGameObject(PlayerObject, id))] else [])
      + (if c == t.source then [UpdateLogic(PlayerLogic, id), SetPlayer(id)] else [])
      + (if c in conns && c != t.source then [NewPlayer(t.playerName, id)] else [])
  {
    var a := [Delivery(t.source, InitWorld(snapshot))];
    var b := Fanout(conns, None, AddGameObject(FromGameObject(PlayerObject, id)));
    var d := [Delivery(t.source, UpdateLogic(PlayerLogic, id)), Delivery(t.source, SetPlayer(id))];
    var e := Fanout(conns, Some(t.source), NewPlayer(t.playerName, id));
    MessagesToAppend(a + b + d, e, c);
    MessagesToAppend(a + b, d, c);
    MessagesToAppend(a, b, c);
    FanoutReachesEachOnce(conns, None, AddGameObject(FromGameObject(PlayerObject, id)), c);
    FanoutReachesEachOnce(conns, Some(t.source), NewPlayer(t.playerName, id), c);
    assert MessagesTo(a, c) == (if c == t.source then [InitWorld(snapshot)] else []) by {
      assert a[1..] == [];
    }
    assert MessagesTo(d, c) == (if c == t.source then [UpdateLogic(PlayerLogic, id), SetPlayer(id)] else []) by {
      assert d[1..][1..] == [];
    }
  }

  /** The registry after registering obj under each of `ids` in turn. */
  function RegisterAll(base: map<int, GameObject>, ids: seq<int>, obj: GameObject): (r: map<int, GameObject>)
    decreases |ids|
  {
    if ids == [] then base else RegisterAll(base, ids[..|ids| - 1], obj)[ids[|ids| - 1] := obj]
  }

  /** Registering obj under `ids` adds exactly those keys, all holding obj, and
      leaves the other entries alone. */
  lemma {:induction false} RegisterAllContents(base: map<int, GameObject>, ids: seq<int>, obj: GameObject, k: int)
    ensures k in RegisterAll(base, ids, obj) <==> k in base || k in ids
    ensures k in ids ==> RegisterAll(base, ids, obj)[k] == obj
    ensures k in base && k !in ids ==> RegisterAll(base, ids, obj)[k] == base[k]
    decreases |ids|
  {
    if ids != [] {
      var init := ids[..|ids| - 1];
      RegisterAllContents(base, init, obj, k);
      assert ids == init + [ids[|ids| - 1]];
    }
  }

  /** An id fresh for the registry extends a distinct, fresh list of ids. */
  lemma FreshStaysDistinct(base: map<int, GameObject>, ids: seq<int>, id: int, obj: GameObject)
    requires Distinct(ids) && (forall i :: 0 <= i < |ids| ==> ids[i] !in base)
    requires id !in RegisterAll(base, ids, obj)
    ensures Distinct(ids + [id]) && (forall i :: 0 <= i < |ids + [id]| ==> (ids + [id])[i] !in base)
  {
    RegisterAllContents(base, ids, obj, id);
  }

  lemma AnnounceOneMore(conns: seq<ConnId>, ids: seq<int>, id: int, obj: GameObject)
    ensures Announcements(conns, ids + [id], obj) ==
      Announcements(conns, ids, obj) + Fanout(conns, None, AddGameObject(FromGameObject(obj, id)))
  {
    assert (ids + [id])[..|ids|] == ids;
  }

  /** The add-listener broadcasts for objects registered in order under `ids`. */
  function Announcements(conns: seq<ConnId>, ids: seq<int>, obj: GameObject): (r: seq<Delivery>)
    decreases |ids|
  {
    if ids == [] then []
    else Announcements(conns, ids[..|ids| - 1], obj) + Fanout(conns, None, AddGameObject(FromGameObject(obj, ids[|ids| - 1])))
  }

  class Server {
    /** The world the server owns (`NetworkAppState.world`). */
    const world: World
    /** Which of the open message kinds extend WorldMessage. */
    const worldKinds: set<Kind>
    /** The transport's live connections, in broadcast order. */
    var connected: seq<ConnId>
    /** The attributes of every connection ever added; a disconnected
        connection keeps its attributes, as the Java object does. */
    var attributes: map<ConnId, Attributes>
    var identifiedConnections: seq<ConnId>
    /** Work enqueued with `app.enqueue`, oldest first. */
    var tasks: seq<JoinTask>
    var outbox: seq<Delivery>
    /** The world messages whose `applyToWorld` ran, in order. */
    var applied: seq<Application>

    /** What every method keeps: live connections are distinct and known; the
        "Identified" attribute is absent or true; every identified connection
        and every pending task's source was identified, and an identified
        connection has its player id. */
    ghost predicate Valid()
      reads this
    {
      Distinct(connected) &&
      (forall c :: c in connected ==> c in attributes) &&
      (forall c :: c in attributes ==> attributes[c].identified != Some(false)) &&
      (forall c :: c in identifiedConnections ==>
         c in attributes && attributes[c].identified == Some(true) && attributes[c].playerId.Some?) &&
      (forall i :: 0 <= i < |tasks| ==>
         tasks[i].source in attributes && attributes[tasks[i].source].identified == Some(true))
    }

    /** `GameServer(world)`. */
    constructor (world: World, worldKinds: set<Kind>)
      ensures Valid() && this.world == world && this.worldKinds == worldKinds
      ensures connected == [] && attributes == map[] && identifiedConnections == []
      ensures tasks == [] && outbox == [] && applied == []
    {
      this.world := world;
      this.worldKinds := worldKinds;
      connected, attributes, identifiedConnections := [], map[], [];
      tasks, outbox, applied := [], [], [];
    }

    /** `gameObjectAdded`: announce a registered object to every connection. */
    method GameObjectAdded(obj: GameObject, id: int)
      modifies this`outbox
      ensures outbox == old(outbox) + Fanout(connected, None, AddGameObject(FromGameObject(obj, id)))
    {
      outbox := outbox + Fanout(connected, None, AddGameObject(FromGameObject(obj, id)));
    }

    /** `gameObjectRemoved`: announce the id of a removed object to every connection. */
    method GameObjectRemoved(id: int)
      modifies this`outbox
      ensures outbox == old(outbox) + Fanout(connected, None, RemoveGameObject(id))
    {
      outbox := outbox + Fanout(connected, None, RemoveGameObject(id));
    }

    /** The transport accepts a new connection; the server's `connectionAdded`
        does nothing. */
    method ConnectionAdded(c: ConnId)
      requires Valid() && c !in attributes
      modifies this`connected, this`attributes
      ensures Valid()
      ensures connected == old(connected) + [c]
      ensures attributes == old(attributes)[c := NoAttributes]
    {
      connected := connected + [c];
      attributes := attributes[c := NoAttributes];
    }

    /** `messageReceived(source, m)`. */
    method MessageReceived(source: ConnId, m: Message) returns (outcome: Outcome)
      requires Valid() && source in connected
      modifies this`outbox, this`attributes, this`tasks, this`applied, world
      ensures Valid()
      // A position update is relayed to everyone else, identified or not.
      ensures m.UpdatePosition? ==>
        outbox == old(outbox) + Fanout(connected, Some(source), m) &&
        world.objects == old(world.objects) &&
        attributes == old(attributes) && tasks == old(tasks) &&
        (outcome == AbsentIdentified <==> old(attributes)[source].identified == None)
      // An identification only sets the attributes and enqueues one join task.
      ensures m.Identification? ==>
        attributes == old(attributes)[source := old(attributes)[source].(playerName := Some(m.playerName), identified := Some(true))] &&
        tasks == old(tasks) + [JoinTask(source, m.playerName)] &&
        outbox == old(outbox) && world.objects == old(world.objects) && applied == old(applied) &&
        outcome == Handled
      ensures !m.Identification? ==> attributes == old(attributes) && tasks == old(tasks)
      // From a connection that never identified, nothing is applied.
      ensures !m.Identification? && old(attributes)[source].identified == None ==>
        outcome == AbsentIdentified &&
        world.objects == old(world.objects) && applied == old(applied) &&
        outbox == old(outbox) + (if m.UpdatePosition? then Fanout(connected, Some(source), m) else [])
      // From an identified connection, a world message is applied; a position
      // update that is one is thus both relayed and applied.
      ensures !m.Identification? && old(attributes)[source].identified == Some(true) && IsWorldMessage(m, worldKinds) ==>
        applied == old(applied) + [Application(source, m)]
      ensures !m.Identification? && old(attributes)[source].identified == Some(true) && m.AddGameObject? ==>
        (outcome == Handled <==> m.add.id !in old(world.objects)) &&
        (outcome != Handled ==> outcome == IdTaken) &&
        world.objects == (if outcome == Handled then old(world.objects)[m.add.id := Carried(m.add)] else old(world.objects)) &&
        outbox == old(outbox) + (if outcome == Handled then Fanout(connected, None, m) else [])
      ensures !m.Identification? && old(attributes)[source].identified == Some(true) && !m.AddGameObject? ==>
        outcome == Handled && world.objects == old(world.objects) &&
        outbox == old(outbox) + (if m.UpdatePosition? then Fanout(connected, Some(source), m) else [])
      ensures !m.Identification? && old(attributes)[source].identified == Some(true) && !IsWorldMessage(m, worldKinds) ==>
        applied == old(applied)
    {
      outcome := Handled;
      if m.UpdatePosition? {
        outbox := outbox + Fanout(connected, Some(source), m);
      }
      if m.Identification? {
        attributes := attributes[source := attributes[source].(playerName := Some(m.playerName), identified := Some(true))];
        tasks := tasks + [JoinTask(source, m.playerName)];
      } else if attributes[source].identified == None {
        outcome := AbsentIdentified;
      } else if attributes[source].identified == Some(true) {
        if m.AddGameObject? {
          applied := applied + [Application(source, m)];
          // Assumed `applyToWorld`: the object under the id, if any, is passed on.
          var target := if m.add.id in world.objects then Some(world.objects[m.add.id]) else None;
          var ok := ApplyToGameObject(m.add, world, target);
          if ok {
            CarriedRoundTrip(m.add);
            GameObjectAdded(Carried(m.add), m.add.id);
          } else {
            outcome := IdTaken;
          }
        } else if IsWorldMessage(m, worldKinds) {
          applied := applied + [Application(source, m)];
        }
      }
    }

    /** Runs the oldest enqueued join task, if any, and reports the id the world
        assigned to the new player object. */
    method RunNextTask() returns (ran: bool, playerId: int)
      requires Valid()
      modifies this`outbox, this`attributes, this`tasks, this`identifiedConnections, world
      ensures Valid()
      ensures ran <==> old(tasks) != []
      ensures !ran ==>
        outbox == old(outbox) && attributes == old(attributes) && tasks == old(tasks) &&
        identifiedConnections == old(identifiedConnections) && world.objects == old(world.objects)
      ensures ran ==>
        var t := old(tasks)[0];
        tasks == old(tasks)[1..] &&
        playerId !in old(world.objects) &&
        world.objects == old(world.objects)[playerId := PlayerObject] &&
        attributes == old(attributes)[t.source := old(attributes)[t.source].(playerId := Some(playerId))] &&
        outbox == old(outbox) + JoinDeliveries(connected, old(world.objects), t, playerId) &&
        identifiedConnections == old(identifiedConnections) + [t.source]
    {
      if tasks == [] {
        return false, 0;
      }
      ran := true;
      var t := tasks[0];
      tasks := tasks[1..];
      var snapshot := world.objects;
      outbox := outbox + [Delivery(t.source, InitWorld(snapshot))];
      playerId := world.AddGameObject(PlayerObject);
      GameObjectAdded(PlayerObject, playerId);
      attributes := attributes[t.source := attributes[t.source].(playerId := Some(playerId))];
      outbox := outbox + [Delivery(t.source, UpdateLogic(PlayerLogic, playerId))];
      outbox := outbox + [Delivery(t.source, SetPlayer(playerId))];
      outbox := outbox + Fanout(connected, Some(t.source), NewPlayer(t.playerName, playerId));
      identifiedConnections := identifiedConnections + [t.source];
    }

    /** The transport drops connection c, then calls `connectionRemoved(c)`. */
    method ConnectionRemoved(c: ConnId)
      requires Valid() && c in connected
      modifies this`connected, this`outbox, this`identifiedConnections, world
      ensures Valid()
      ensures connected == RemoveFirst(old(connected), c) && c !in connected
      ensures c in old(identifiedConnections) ==>
        var pid := attributes[c].playerId.value;
        identifiedConnections == RemoveFirst(old(identifiedConnections), c) &&
        world.objects == old(world.objects) - {pid} &&
        outbox == old(outbox) + (if pid in old(world.objects) then Fanout(connected, None, RemoveGameObject(pid)) else [])
      ensures c !in old(identifiedConnections) ==>
        identifiedConnections == old(identifiedConnections) &&
        world.objects == old(world.objects) && outbox == old(outbox)
    {
      RemoveFirstDistinct(connected, c);
      connected := RemoveFirst(connected, c);
      if c in identifiedConnections {
        identifiedConnections := RemoveFirst(identifiedConnections, c);
        var pid := attributes[c].playerId.value;
        var removed := world.RemoveGameObject(pid);
        if removed.Some? {
          GameObjectRemoved(pid);
        }
      }
    }

    /** `initObstacles`: registers ObstacleCount obstacles under fresh ids,
        announcing each. */
    method InitObstacles() returns (ghost ids: seq<int>)
      modifies this`outbox, world
      ensures |ids| == ObstacleCount && Distinct(ids)
      ensures forall i :: 0 <= i < |ids| ==> ids[i] !in old(world.objects)
      ensures world.objects == RegisterAll(old(world.objects), ids, Obstacle)
      ensures |world.objects| == |old(world.objects)| + ObstacleCount
      ensures outbox == old(outbox) + Announcements(connected, ids, Obstacle)
    {
      ids := [];
      ghost var conns := connected;
      for n := 0 to ObstacleCount
        invariant connected == conns
        invariant |ids| == n && Distinct(ids)
        invariant forall i :: 0 <= i < |ids| ==> ids[i] !in old(world.objects)
        invariant world.objects == RegisterAll(old(world.objects), ids, Obstacle)
        invariant |world.objects| == |old(world.objects)| + n
        invariant outbox == old(outbox) + Announcements(conns, ids, Obstacle)
      {
        ghost var before, prev := world.objects, ids;
        var id := world.AddGameObject(Obstacle);
        GameObjectAdded(Obstacle, id);
        ids := ids + [id];
        FreshStaysDistinct(old(world.objects), prev, id, Obstacle);
        assert ids[..|ids| - 1] == prev;
        AnnounceOneMore(conns, prev, id, Obstacle);
      }
    }

    /** The world part of `stateAttached`: the ground, one fixed obstacle and
        the obstacle field, each registered under a fresh id and announced by
        the add-listener. */
    method StateAttached() returns (ghost groundId: int, ghost obstacleId: int, ghost fieldIds: seq<int>)
      modifies this`outbox, world
      ensures groundId !in old(world.objects)
      ensures obstacleId !in old(world.objects) && obstacleId != groundId
      ensures |fieldIds| == ObstacleCount && Distinct(fieldIds)
      ensures forall i :: 0 <= i < |fieldIds| ==>
        fieldIds[i] !in old(world.objects) && fieldIds[i] != groundId && fieldIds[i] != obstacleId
      ensures world.objects == RegisterAll(old(world.objects)[groundId := Ground][obstacleId := Obstacle], fieldIds, Obstacle)
      ensures |world.objects| == |old(world.objects)| + 2 + ObstacleCount
      ensures outbox == old(outbox)
        + Fanout(connected, None, AddGameObject(FromGameObject(Ground, groundId)))
        + Fanout(connected, None, AddGameObject(FromGameObject(Obstacle, obstacleId)))
        + Announcements(connected, fieldIds, Obstacle)
    {
      var ground := world.AddGameObject(Ground);
      GameObjectAdded(Ground, ground);
      var obstacle := world.AddGameObject(Obstacle);
      GameObjectAdded(Obstacle, obstacle);
      fieldIds := InitObstacles();
      groundId, obstacleId := ground, obstacle;
    }
  }

  lemma {:induction false} AnnouncementsToNobody(ids: seq<int>, obj: GameObject)
    ensures Announcements([], ids, obj) == []
    decreases |ids|
  {
    if ids != [] {
      AnnouncementsToNobody(ids[..|ids| - 1], obj);
    }
  }

  /** A server over a fresh world, after `stateAttached`, before any connection. */
  method StartServer(worldKinds: set<Kind>) returns (server: Server)
    ensures fresh(server) && fresh(server.world) && server.Valid() && server.worldKinds == worldKinds
    ensures server.connected == [] && server.tasks == [] && server.outbox == []
    ensures server.attributes == map[] && server.identifiedConnections == []
    ensures |server.world.objects| == 2 + ObstacleCount
  {
    var world := new World();
    server := new Server(world, worldKinds);
    ghost var g, o, field := server.StateAttached();
    AnnouncementsToNobody(field, Obstacle);
    assert server.outbox == [];
  }

  /** Connection c identifies as `name` and its join task runs. */
  method IdentifyAndJoin(server: Server, c: ConnId, name: string) returns (id: int)
    requires server.Valid() && c in server.connected && server.tasks == []
    modifies server, server.world
    ensures server.Valid() && server.tasks == [] && server.attributes.Keys == old(server.attributes).Keys
    ensures server.attributes[c].playerId == Some(id)
    ensures server.connected == old(server.connected)
    ensures server.identifiedConnections == old(server.identifiedConnections) + [c]
    ensures id !in old(server.world.objects) && server.world.objects == old(server.world.objects)[id := PlayerObject]
    ensures server.outbox == old(server.outbox) +
      JoinDeliveries(server.connected, old(server.world.objects), JoinTask(c, name), id)
  {
    var outcome := server.MessageReceived(c, Identification(name));
    assert server.tasks == [JoinTask(c, name)];
    var ran: bool;
    ran, id := server.RunNextTask();
  }

  /** A new connection c identifies as `name` and its join task runs. */
  method ConnectAndJoin(server: Server, c: ConnId, name: string) returns (id: int)
    requires server.Valid() && c !in server.attributes && server.tasks == []
    modifies server, server.world
    ensures server.Valid() && server.tasks == [] && server.attributes.Keys == old(server.attributes).Keys + {c}
    ensures server.connected == old(server.connected) + [c]
    ensures server.identifiedConnections == old(server.identifiedConnections) + [c]
    ensures id !in old(server.world.objects) && server.world.objects == old(server.world.objects)[id := PlayerObject]
    ensures server.outbox == old(server.outbox) +
      JoinDeliveries(old(server.connected) + [c], old(server.world.objects), JoinTask(c, name), id)
  {
    server.ConnectionAdded(c);
    id := IdentifyAndJoin(server, c, name);
  }

  /** A connection listed twice in `identifiedConnections` disconnects: one
      entry and the player object of its latest join go; the other stays. */
  method DropTwiceJoined(server: Server, c: ConnId, first: int, second: int)
    requires server.Valid() && c in server.connected && server.identifiedConnections == [c, c]
    requires server.attributes[c].playerId == Some(second)
    requires first in server.world.objects && first != second
    modifies server, server.world
    ensures server.identifiedConnections == [c]
    ensures first in server.world.objects && second !in server.world.objects
  {
    assert RemoveFirst([c, c], c) == [c];
    server.ConnectionRemoved(c);
  }

  /** What connections 1 and 2 receive when 1 joins as Alice and then 2 joins
      as Bob. */
  lemma TwoJoinsDelivered(start: map<int, GameObject>, afterAlice: map<int, GameObject>, aliceId: int, bobId: int)
    ensures var out := JoinDeliveries([1], start, JoinTask(1, "Alice"), aliceId) +
                       JoinDeliveries([1, 2], afterAlice, JoinTask(2, "Bob"), bobId);
      MessagesTo(out, 1) ==
        [InitWorld(start), AddGameObject(FromGameObject(PlayerObject, aliceId)), UpdateLogic(PlayerLogic, aliceId), SetPlayer(aliceId),
         AddGameObject(FromGameObject(PlayerObject, bobId)), NewPlayer("Bob", bobId)] &&
      MessagesTo(out, 2) ==
        [InitWorld(afterAlice), AddGameObject(FromGameObject(PlayerObject, bobId)), UpdateLogic(PlayerLogic, bobId), SetPlayer(bobId)]
  {
    var first := JoinDeliveries([1], start, JoinTask(1, "Alice"), aliceId);
    var second := JoinDeliveries([1, 2], afterAlice, JoinTask(2, "Bob"), bobId);
    JoinSequenceAtSource([1], start, JoinTask(1, "Alice"), aliceId);
    JoinMessagesTo([1], start, JoinTask(1, "Alice"), aliceId, 2);
    JoinSequenceAtOthers([1, 2], afterAlice, JoinTask(2, "Bob"), bobId, 1);
    JoinSequenceAtSource([1, 2], afterAlice, JoinTask(2, "Bob"), bobId);
    MessagesToAppend(first, second, 1);
    MessagesToAppend(first, second, 2);
  }

  /** The end-to-end join of two players: the server starts with the ground,
      one obstacle and the obstacle field; Alice connects and identifies and
      her join runs; then Bob does the same. Alice's snapshot holds the 202
      initial objects; Bob's holds those and Alice's player object; Alice
      hears of Bob's object and then of Bob himself. */
  method TwoPlayersJoin(worldKinds: set<Kind>) returns (alice: seq<Message>, bob: seq<Message>, aliceId: int, bobId: int)
    ensures |alice| == 6 && |bob| == 4
    ensures alice[0].InitWorld? && |alice[0].objects| == 2 + ObstacleCount && aliceId !in alice[0].objects
    ensures alice[1..4] == [AddGameObject(FromGameObject(PlayerObject, aliceId)), UpdateLogic(PlayerLogic, aliceId), SetPlayer(aliceId)]
    ensures alice[4..] == [AddGameObject(FromGameObject(PlayerObject, bobId)), NewPlayer("Bob", bobId)]
    ensures bob[0].InitWorld? && |bob[0].objects| == 3 + ObstacleCount && aliceId in bob[0].objects && bobId !in bob[0].objects
    ensures bob[1..] == [AddGameObject(FromGameObject(PlayerObject, bobId)), UpdateLogic(PlayerLogic, bobId), SetPlayer(bobId)]
  {
    var server := StartServer(worldKinds);
    var start := server.world.objects;
    aliceId := ConnectAndJoin(server, 1, "Alice");
    var afterAlice := server.world.objects;
    bobId := ConnectAndJoin(server, 2, "Bob");
    var first := JoinDeliveries([1], start, JoinTask(1, "Alice"), aliceId);
    var second := JoinDeliveries([1, 2], afterAlice, JoinTask(2, "Bob"), bobId);
    assert [] + [1] == [1];
    assert server.outbox == first + second;

    TwoJoinsDelivered(start, afterAlice, aliceId, bobId);
    alice := MessagesTo(server.outbox, 1);
    bob := MessagesTo(server.outbox, 2);
  }

  /** A connection that identifies and drops before its join task runs: the
      task still runs, so its player object stays registered and the closed
      connection stays in `identifiedConnections`, where no later disconnect
      can remove it. */
  method DisconnectBeforeJoin(worldKinds: set<Kind>) returns (orphanRegistered: bool, closedButTracked: bool)
    ensures orphanRegistered && closedButTracked
  {
    var server := StartServer(worldKinds);
    server.ConnectionAdded(1);
    var outcome := server.MessageReceived(1, Identification("Carol"));
    assert server.tasks == [JoinTask(1, "Carol")];
    server.ConnectionRemoved(1);
    var ran, id := server.RunNextTask();
    orphanRegistered := id in server.world.objects;
    closedButTracked := 1 in server.identifiedConnections && 1 !in server.connected;
  }

  /** A connection that identifies twice gets two player objects and is listed
      twice; its disconnect removes one listing and only the newer object. */
  method IdentifyTwice(worldKinds: set<Kind>) returns (firstKept: bool, secondRemoved: bool, stillListed: bool)
    ensures firstKept && secondRemoved && stillListed
  {
    var server := StartServer(worldKinds);
    var first := ConnectAndJoin(server, 1, "Dave");
    var second := IdentifyAndJoin(server, 1, "Dave");
    assert server.identifiedConnections == [1, 1];
    DropTwiceJoined(server, 1, first, second);
    firstKept := first in server.world.objects;
    secondRemoved := second !in server.world.objects;
    stillListed := server.identifiedConnections == [1];
  }
}

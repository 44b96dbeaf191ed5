# TagMe core in Dafny

TagMe is a small networked tag game. This project models three pieces of its
sequential logic and proves properties about them.

- **The game object control** (`GameObjectControl`). Every game object
  carries one. It binds one optional Model and one optional Logic to the
  scene-graph node it is attached to. Its setters decide when the "Model"
  child node is rebuilt and when the Logic's `addLogic` and `removeLogic`
  hooks run. The hooks and `Model.createModel` are foreign code. Each call the
  control makes into them is an `Effect` appended to a trace, and the
  contracts are about that trace. The control is a class, `Control`, whose
  methods update its fields. Each method is tied to a step function on the
  `ControlState` value. The lifetime properties are lemmas over `Run`, which
  applies any sequence of calls.
- **The game server** (`GameServer`). It dispatches each incoming message by
  its kind and the source connection's attributes. An identification message
  enqueues a join task, which later:
  1. sends the world snapshot;
  2. registers a player object;
  3. sends the player its logic and its id;
  4. announces the player to everyone else.

  On disconnect the server removes the player's object. The world-listener
  callbacks turn registry changes into broadcasts.

  `Server` is a class. It has these parts:
  - the live connection list;
  - the attributes set on each connection;
  - `identifiedConnections`, a list that may hold duplicates;
  - a FIFO of join tasks, which `RunNextTask` runs one at a time;
  - `worldKinds`, the message kinds that extend `WorldMessage` (see below);
  - an outbox of (recipient, message) deliveries that stands for
    `send`/`broadcast`. A broadcast's deliveries are listed in connection-list
    order, which the transport does not promise; every proved property is per
    recipient, so none depends on it;
  - a log of the world messages it applied.
- **`AddGameObjectMessage`**. This is a value record (logic, model, id). Its
  apply step registers a new object under the carried id.

`World.java` is not part of this model. `Registry.World` stands in for it: a
map from id to object with three operations.
- add under a fresh id;
- add under a given id, which fails when the id is already taken;
- remove.

Their contracts are assumptions about the world registry, not properties
proved of shown code, and their doc comments say so.

Files:
- `descriptors.dfy`: `Option`, and the kinds of Logic and Model the core
  names.
- `registry.dfy`: the world registry.
- `game_object_control.dfy`: the control.
- `messages.dfy`: the message kinds and `AddGameObjectMessage`.
- `game_server.dfy`: the server, plus end-to-end scenarios built from its
  methods.

Two behaviours of the code are modelled as written, although its comments and
names suggest otherwise:
- The `initialLogicAdded` flag is documented (GameObjectControl.java:28-31) as
  recording whether the constructor's logic has been added yet. The test in
  `setLogic` instead removes a constructor-supplied logic on the first
  `setLogic` call, before it was ever added. After that call it never removes
  a replaced logic.
- The `} if` after the position relay lets a position update fall through to
  the identification check. If the position message class is a
  `WorldMessage`, an identified source's update is thus both relayed and
  applied.

A third behaviour is modelled as written too: the join task does not check
that its connection is still connected (GameServer.java:149-182), so it runs
even if its connection dropped before it ran.

## Model

| member | source | states |
|---|---|---|
| GameObjectControl.Control.constructor | src/world/GameObjectControl.java:32-40 | The one-argument constructor leaves the flag true, the id 0, every field null and the trace empty. |
| GameObjectControl.Control.WithDescriptors | src/world/GameObjectControl.java:42-49 | Stores the model and logic given. The flag is true exactly when no logic is given. |
| GameObjectControl.Control.SetSpatial | src/world/GameObjectControl.java:60-72 | A non-Node spatial is refused and changes nothing. Otherwise the node (or null) is stored, then the current model and then the current logic are set again. |
| GameObjectControl.Control.SetModel | src/world/GameObjectControl.java:78-91 | The model is always stored. With both a game object and a model, the old model node (if any) is detached and a new one is built under the game object. Otherwise the node and trace are unchanged. |
| GameObjectControl.Control.SetLogic | src/world/GameObjectControl.java:101-111 | The flag becomes true and the logic is stored. The trace grows as SetLogicStep says. |
| GameObjectControl.Control.GetId | src/world/GameObjectControl.java:121-123 | Returns the stored id. |
| GameObjectControl.Control.SetId | src/world/GameObjectControl.java:131-133 | Changes the id and nothing else. |
| GameObjectControl.NonNodeRefused | src/world/GameObjectControl.java:60-64 | setSpatial with a Spatial that is not a Node fails and leaves the state unchanged. |
| GameObjectControl.SetModelEffects | src/world/GameObjectControl.java:78-91 | setModel always stores the model and leaves the logic, flag, id and game object alone. It detaches and rebuilds the model node, in that order, exactly when both a game object and a model are present. |
| GameObjectControl.SetLogicEffects | src/world/GameObjectControl.java:101-111 | setLogic appends first a removal of the current logic, exactly when the flag is false and a logic is present. It then appends an addition of the new logic to the game object, exactly when both are present. The flag ends true and the model side is untouched. |
| GameObjectControl.DetachIsSilent | src/world/GameObjectControl.java:65-71 | Once the flag is set, setSpatial(null) only forgets the game object. There is no model node, removal or addition event. |
| GameObjectControl.InitialLogicRemovedBeforeAdded | src/world/GameObjectControl.java:42-49 | Attaching a control built with model m and logic l to node g yields the trace build m, remove l, add l. A later replacement by l2 only adds l2 and never removes l. |
| GameObjectControl.FlagSetForever | src/world/GameObjectControl.java:106 | After any setLogic call the flag is true, whatever calls follow. |
| GameObjectControl.AtMostOneRemoval | src/world/GameObjectControl.java:102-105 | Over any sequence of calls, removeLogic runs at most once, and only for a control constructed with a logic. Every removal targets that logic. A control built by the one-argument constructor never removes. |
| GameObjectControl.NoRemovalOnceFlagSet | src/world/GameObjectControl.java:102-106 | From a state whose flag is set, no further call ever runs removeLogic. |
| GameObjectControl.IdIsLastSetId | src/world/GameObjectControl.java:121-133 | After any sequence of calls, the id is the one the last setId stored, or the starting id if no setId was made. |
| GameObjectControl.ConstructedIdIsZero | src/world/GameObjectControl.java:35 | With no setId call, both constructors' controls report id 0. |
| Messages.EmptyAddGameObjectMessage | src/network/message/world/AddGameObjectMessage.java:22-23 | The no-argument constructor leaves logic and model null. |
| Messages.FromGameObject | src/network/client/GameServer.java:209 | The message announcing a registered object carries that object's logic and model (Carried inverts it) and its id. |
| Messages.CarriedRoundTrip | src/network/message/world/AddGameObjectMessage.java:25-29 | The three-argument constructor stores logic, model and id unchanged. Building the announcement from the object a message carries gives the same message back. |
| Messages.ApplyToGameObject | src/network/message/world/AddGameObjectMessage.java:31-38 | The object passed in is ignored. The registry gains exactly one entry, under the message's id, carrying the message's model and logic, exactly when that id was free. Otherwise nothing changes. |
| Registry.World.AddGameObject | src/network/client/GameServer.java:163 | Assumption about the registry: the object is registered under a non-negative id that was not in use, which is returned. |
| Registry.World.AddGameObjectWithId | src/network/message/world/AddGameObjectMessage.java:36 | Assumption about the registry: the object is registered under the given id exactly when that id is free. |
| Registry.World.RemoveGameObject | src/network/client/GameServer.java:201 | Assumption about the registry: the id is removed, and the removed object is reported exactly when it was present. |
| GameServer.RemoveFirst | src/network/client/GameServer.java:200 | ArrayList.remove drops one occurrence when present (one element fewer, multiset minus that element) and changes nothing when absent. |
| GameServer.FanoutRecipients | src/network/client/GameServer.java:140 | A broadcast carries m to exactly the listed connections other than the excluded one: every delivery goes to one of them, and each of them gets one. |
| GameServer.FanoutReachesEachOnce | src/network/client/GameServer.java:175 | Over distinct connections, each included connection receives the broadcast message exactly once, and the excluded one never. |
| GameServer.JoinSequenceAtSource | src/network/client/GameServer.java:155-172 | The joining connection receives, in order: the snapshot taken before the player was added, the announcement of its player object, UpdateLogic and SetPlayer, all with the same id. It gets no NewPlayer notice. If it dropped before the task ran, it misses the broadcast. |
| GameServer.JoinSequenceAtOthers | src/network/client/GameServer.java:163-175 | Every other live connection receives the player object's announcement and then NewPlayer with the joining name and the same id. |
| GameServer.Server.constructor | src/network/client/GameServer.java:65-68 | `GameServer(world)` owns the given world and starts with no connections, attributes, identified connections, tasks, deliveries or applied messages. The serializer registration is not modelled. |
| Messages.KindOf | src/network/client/GameServer.java:185 | A message has an open kind exactly when it is not an identification, an AddGameObject, an OtherWorldMessage or an Other message. |
| Messages.IsWorldMessage | src/network/client/GameServer.java:185 | `m instanceof WorldMessage`: always for AddGameObject (an assumption, see Left out) and OtherWorldMessage, never for identification and Other, and for an open kind exactly when that kind is in `worldKinds`. |
| GameServer.Server.GameObjectAdded | src/network/client/GameServer.java:206-210 | Appends one AddGameObject for the registered object to every live connection. |
| GameServer.Server.GameObjectRemoved | src/network/client/GameServer.java:212-216 | Appends one RemoveGameObject with the id to every live connection. |
| GameServer.Server.ConnectionAdded | src/network/client/GameServer.java:191-193 | A new connection joins the live list with no attributes set. The server itself does nothing. |
| GameServer.Server.MessageReceived | src/network/client/GameServer.java:135-189 | A position update is relayed to everyone but its source, whatever the source's state. An identification only sets PlayerName and Identified and enqueues one join task, with no send and no world change. Any other message from a connection that never identified fails unboxing the absent attribute and is not applied. A world message from an identified connection is applied, a position update being relayed and also applied when its kind is in `worldKinds`. An AddGameObject is registered and announced exactly when its id is free. |
| GameServer.Server.RunNextTask | src/network/client/GameServer.java:149-182 | Runs the oldest task. The world gains exactly the player object under a fresh id, PlayerId is set to that id, the outbox grows by JoinDeliveries for the pre-join snapshot, and the source is appended to identifiedConnections. With no task, nothing changes. |
| GameServer.Server.ConnectionRemoved | src/network/client/GameServer.java:196-203 | If the connection is in identifiedConnections, one occurrence is removed and its PlayerId object is removed, with RemoveGameObject broadcast to the remaining connections. Otherwise the list, the world and the outbox are unchanged. |
| GameServer.Server.InitObstacles | src/network/client/GameServer.java:105-126 | Registers exactly 200 obstacles under distinct fresh ids and announces each, in order. |
| GameServer.Server.StateAttached | src/network/client/GameServer.java:89-101 | Registers the ground, one fixed obstacle and the 200-obstacle field under distinct fresh ids, 202 objects in all, each announced. |
| GameServer.TwoJoinsDelivered | src/network/client/GameServer.java:155-178 | When connection 1 joins as Alice and then connection 2 joins as Bob, connection 1 receives its snapshot, its object, logic and id, then Bob's object and NewPlayer. Connection 2 receives only its snapshot, its object, logic and id. |
| GameServer.TwoPlayersJoin | src/network/client/GameServer.java:141-182 | For any `worldKinds`: Alice then Bob join a started server. Alice's messages are: a 202-object snapshot without her id, her object, logic and id, then Bob's object and NewPlayer. Bob's messages are: a 203-object snapshot holding Alice's id but not his own, then his object, logic and id. |
| GameServer.DisconnectBeforeJoin | src/network/client/GameServer.java:141-203 | A connection that identifies and drops before its join task runs still has its player object registered. It stays listed in identifiedConnections. |
| GameServer.IdentifyTwice | src/network/client/GameServer.java:141-203 | A connection that identifies twice is listed twice. On disconnect, only the object of its latest join is removed, and one entry remains listed. |

## Left out

- The transport is not modelled: server creation, start and close, listener registration, and `Filters`. Sends and broadcasts are outbox appends only, and a send to a connection that has dropped is still appended.
- The IOException path of server creation in `stateAttached` is startup I/O and is not modelled.
- Threading behind `app.enqueue` is not modelled. Join tasks are a sequential FIFO, and when they run relative to incoming messages is up to the caller.
- Random obstacle sizes and positions in `initObstacles` are floats and `Random`. Only the loop count and the kinds of object are kept.
- Position updates carry only an object id; their coordinates are floats.
- Floating-point arguments of descriptors (sizes, positions, colours) and the world size in `InitWorldMessage` are not modelled.
- What `Model.createModel`, `Logic.addLogic` and `Logic.removeLogic` actually do is foreign. They appear only as trace effects.
- The control's `world` field and the world passed to `createModel`, `addLogic` and `removeLogic` are not modelled.
- The plain getters (`getModel`, `getModelNode`, `getLogic`, `getWorld`, `getGameObject`) are not separate members. They read the fields that `Control.State()` exposes.
- `AbstractControl.setSpatial` is library code and is not part of this model. Its check against attaching a control twice is not modelled.
- World.java is not part of this model. Its contracts in `Registry.World` are assumptions, including that a taken id makes `addGameObject(obj, id)` fail without change, and which fresh id is chosen.
- The listeners' `Spatial` argument is reduced to the object and its id. The id read back from the object's user data in `gameObjectRemoved` is the removed PlayerId.
- Which message classes extend `WorldMessage` is not settled by the files modelled. AddGameObjectMessage is assumed to be a WorldMessage whose `applyToWorld` calls `applyToGameObject` with the object registered under its id; its superclass GameObjectMessage is not part of this model. For position updates, InitWorld, SetPlayer, NewPlayer, RemoveGameObject and UpdateLogic, the server's `worldKinds` parameter decides, and every proved property holds for any choice. `OtherWorldMessage` and `Other` stand for the remaining world and non-world classes.
- GameServer.Server.MessageReceived: applying a world message other than `AddGameObject` is recorded only in the server's `applied` log. Its effect on the world (`applyToWorld` of those classes) is not part of this model, so the contract states the world unchanged for them.
- GameObjectMessage.java is not part of this model. `EmptyAddGameObjectMessage` gives the id Java's default of 0 for an int field.
- The one-argument `AddGameObjectMessage(Spatial)` constructor that `gameObjectAdded` uses is not in AddGameObjectMessage.java as shown. `FromGameObject` models it from the registered object's logic, model and id.
- Messages.EmptyAddGameObjectMessage: its contract does not fix the id, because the superclass that declares it is not part of this model.
- The serializer registry, the model and game-object factories, the game mode hooks and logging are not modelled.

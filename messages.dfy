/** The message protocol: immutable records exchanged between server and
    clients. Only AddGameObjectMessage knows how to apply itself to a world
    here; the other kinds are values the server sends or relays. */
module Messages {
  import opened Descriptors
  import opened Registry

  /** AddGameObjectMessage: the object id (a field of its superclass
      GameObjectMessage), the Logic and the Model of a new game object. */
  datatype AddGameObjectMessage = AddGameObjectMessage(logic: Option<Logic>, model: Option<Model>, id: int)

  /** `AddGameObjectMessage()`, the constructor the serializer uses: logic and
      model stay null. GameObjectMessage is not part of this model, so the id
      is Java's default for an int field. */
  function EmptyAddGameObjectMessage(): (r: AddGameObjectMessage)
    ensures r.logic == None && r.model == None
  {
    AddGameObjectMessage(None, None, 0)
  }

  /** The node `applyToGameObject` builds, as the registry sees it: a
      ModelControl with the message's model and a LogicControl with its logic. */
  function Carried(msg: AddGameObjectMessage): (r: GameObject)
  {
    GameObject(msg.logic, msg.model)
  }

  /** The message the server's add-listener builds from a registered object and
      its id (a constructor that AddGameObjectMessage.java as shown does not
      declare). Carried undoes it, so a client that applies the message
      registers the very object the server announced. */
  function FromGameObject(obj: GameObject, id: int): (r: AddGameObjectMessage)
    ensures Carried(r) == obj && r.id == id
  {
    AddGameObjectMessage(obj.logic, obj.model, id)
  }

  /** The constructor `AddGameObjectMessage(logic, model, id)` stores all three
      unchanged; FromGameObject inverts Carried. */
  lemma CarriedRoundTrip(msg: AddGameObjectMessage)
    ensures FromGameObject(Carried(msg), msg.id) == msg
  {
  }

  /** `applyToGameObject(world, gameObject)`: the given object is ignored; a
      fresh node carrying the message's model and logic is registered under the
      message's id. The registry refuses an id that is already taken. */
  method ApplyToGameObject(msg: AddGameObjectMessage, world: World, gameObject: Option<GameObject>) returns (ok: bool)
    modifies world
    ensures ok <==> msg.id !in old(world.objects)
    ensures world.objects == if ok then old(world.objects)[msg.id := Carried(msg)] else old(world.objects)
  {
    var node := GameObject(msg.logic, msg.model);
    ok := world.AddGameObjectWithId(node, msg.id);
  }

  /** The messages of the protocol. Position updates carry only the object id
      here (their coordinates are floats). `OtherWorldMessage` stands for any
      world-mutating message class other than AddGameObjectMessage, and
      `Other` for any message that is none of these. */
  datatype Message =
    | Identification(playerName: string)
    | UpdatePosition(id: int)
    | InitWorld(objects: map<int, GameObject>)
    | SetPlayer(id: int)
    | NewPlayer(playerName: string, id: int)
    | AddGameObject(add: AddGameObjectMessage)
    | RemoveGameObject(id: int)
    | UpdateLogic(logic: Logic, id: int)
    | OtherWorldMessage(tag: nat)
    | Other(tag: nat)

  /** The message kinds whose class hierarchy is not part of this model: each
      may or may not extend WorldMessage. */
  datatype Kind =
    | UpdatePositionKind | InitWorldKind | SetPlayerKind | NewPlayerKind
    | RemoveGameObjectKind | UpdateLogicKind

  /** The kind of a message whose WorldMessage status is open; None for the
      kinds this model settles. Identification is dispatched before the test.
      AddGameObjectMessage is ASSUMED to be a WorldMessage whose `applyToWorld`
      calls `applyToGameObject` with the object registered under its id; its
      superclass GameObjectMessage is not part of this model. OtherWorldMessage
      and Other are world and non-world by definition. */
  function KindOf(m: Message): (k: Option<Kind>)
    ensures k.None? <==> m.Identification? || m.AddGameObject? || m.OtherWorldMessage? || m.Other?
  {
    match m
    case UpdatePosition(_) => Some(UpdatePositionKind)
    case InitWorld(_) => Some(InitWorldKind)
    case SetPlayer(_) => Some(SetPlayerKind)
    case NewPlayer(_, _) => Some(NewPlayerKind)
    case RemoveGameObject(_) => Some(RemoveGameObjectKind)
    case UpdateLogic(_, _) => Some(UpdateLogicKind)
    case _ => None
  }

  /** `m instanceof WorldMessage`, given the set of open kinds that do extend
      WorldMessage. */
  predicate IsWorldMessage(m: Message, worldKinds: set<Kind>): (r: bool)
    ensures m.AddGameObject? || m.OtherWorldMessage? ==> r
    ensures m.Identification? || m.Other? ==> !r
    ensures KindOf(m).Some? ==> (r <==> KindOf(m).value in worldKinds)
  {
    m.AddGameObject? || m.OtherWorldMessage? || (KindOf(m).Some? && KindOf(m).value in worldKinds)
  }
}

/** The control every game object carries: it binds one optional Model and one
    optional Logic to the scene-graph node it is attached to, and decides when
    the model node is rebuilt and when the Logic's add/remove hooks run.

    What `Model.createModel`, `Logic.addLogic` and `Logic.removeLogic` do is
    foreign; each call the control makes into them is an Effect appended to a
    trace, and the contracts below are about that trace. */
module GameObjectControl {
  import opened Descriptors

  /** Identity of a scene-graph node. */
  type NodeId = nat

  /** The argument of `setSpatial` when it is not null: a Node, or a Spatial of
      another kind (a Geometry), which a game object must not be. */
  datatype Spatial = NodeSpatial(node: NodeId) | LeafSpatial(leaf: NodeId)

  /** The "Model" child node that `setModel` builds: the model it materialises
      and the game object it is attached to. */
  datatype ModelNode = ModelNode(source: Model, parent: NodeId)

  /** A call the control makes into foreign code. A removal's target is the
      game object field at the time of the call, which may be null. */
  datatype Effect =
    | ModelNodeDetached(node: ModelNode)
    | ModelBuilt(model: Model, parent: NodeId)
    | LogicRemoved(logic: Logic, target: Option<NodeId>)
    | LogicAdded(logic: Logic, owner: NodeId)

  /** The control's fields, plus the trace of effects so far. */
  datatype ControlState = ControlState(
    gameObject: Option<NodeId>,
    model: Option<Model>,
    modelNode: Option<ModelNode>,
    logic: Option<Logic>,
    initialLogicAdded: bool,
    id: int,
    trace: seq<Effect>)

  // ---------------------------------------------------------------------------
  // The operations on values: one function per constructor and setter.
  // ---------------------------------------------------------------------------

  /** `GameObjectControl(world)`: no descriptors, the flag at its initial true. */
  function Constructed(): (r: ControlState)
  {
    ControlState(None, None, None, None, true, 0, [])
  }

  /** `GameObjectControl(world, model, logic)`: the flag is cleared exactly
      when a logic is given. */
  function ConstructedWith(model: Option<Model>, logic: Option<Logic>): (r: ControlState)
  {
    ControlState(None, model, None, logic, logic == None, 0, [])
  }

  /** `setModel(m)`: the model is always stored; only with both a game object
      and a model is the old model node detached (if any) and a new one built
      under the game object. */
  function SetModelStep(s: ControlState, m: Option<Model>): (r: ControlState)
  {
    if s.gameObject.Some? && m.Some? then
      var detach := if s.modelNode.Some? then [ModelNodeDetached(s.modelNode.value)] else [];
      s.(model := m,
         modelNode := Some(ModelNode(m.value, s.gameObject.value)),
         trace := s.trace + detach + [ModelBuilt(m.value, s.gameObject.value)])
    else
      s.(model := m)
  }

  /** `setLogic(l)`: the current logic's removal hook runs only while the flag
      is still false; the flag is then set for good; the new logic's add hook
      runs when there is a game object. */
  function SetLogicStep(s: ControlState, l: Option<Logic>): (r: ControlState)
  {
    var removal := if !s.initialLogicAdded && s.logic.Some? then [LogicRemoved(s.logic.value, s.gameObject)] else [];
    var addition := if s.gameObject.Some? && l.Some? then [LogicAdded(l.value, s.gameObject.value)] else [];
    s.(initialLogicAdded := true, logic := l, trace := s.trace + removal + addition)
  }

  /** `setSpatial(spatial)`: None when the argument is a Spatial but not a Node
      (the source throws); otherwise the node (or null) is stored and the
      current model and logic are set again, model first. */
  function SetSpatialStep(s: ControlState, spatial: Option<Spatial>): (r: Option<ControlState>)
  {
    if spatial.Some? && spatial.value.LeafSpatial? then
      None
    else
      var attached := s.(gameObject := if spatial.Some? then Some(spatial.value.node) else None);
      var withModel := SetModelStep(attached, attached.model);
      Some(SetLogicStep(withModel, withModel.logic))
  }

  /** One call on a control, as seen by its callers. */
  datatype Call =
    | CallSetSpatial(spatial: Option<Spatial>)
    | CallSetModel(model: Option<Model>)
    | CallSetLogic(logic: Option<Logic>)
    | CallSetId(id: int)

  /** A call's effect on the state; a `setSpatial` that throws changes nothing. */
  function Step(s: ControlState, c: Call): (r: ControlState)
  {
    match c
    case CallSetSpatial(spatial) =>
      var r := SetSpatialStep(s, spatial);
      if r.Some? then r.value else s
    case CallSetModel(m) => SetModelStep(s, m)
    case CallSetLogic(l) => SetLogicStep(s, l)
    case CallSetId(i) => s.(id := i)
  }

  /** The state after a sequence of calls. */
  function Run(s: ControlState, calls: seq<Call>): (r: ControlState)
    decreases |calls|
  {
    if calls == [] then s else Run(Step(s, calls[0]), calls[1..])
  }

  // ---------------------------------------------------------------------------
  // Properties of the operations.
  // ---------------------------------------------------------------------------

  /** A Spatial that is not a Node is refused, and nothing changes. */
  lemma NonNodeRefused(s: ControlState, leaf: NodeId)
    ensures SetSpatialStep(s, Some(LeafSpatial(leaf))) == None
    ensures Step(s, CallSetSpatial(Some(LeafSpatial(leaf)))) == s
  {
  }

  /** What `setModel` changes: the model always; the model node and the trace
      only when both a game object and a model are present, and then the old
      node (if any) is detached before the new one is built under the game
      object. The logic side is untouched. */
  lemma SetModelEffects(s: ControlState, m: Option<Model>)
    ensures SetModelStep(s, m).model == m
    ensures var r := SetModelStep(s, m);
      r.gameObject == s.gameObject && r.logic == s.logic &&
      r.initialLogicAdded == s.initialLogicAdded && r.id == s.id
    ensures !(s.gameObject.Some? && m.Some?) ==>
      SetModelStep(s, m).modelNode == s.modelNode && SetModelStep(s, m).trace == s.trace
    ensures s.gameObject.Some? && m.Some? ==>
      var r := SetModelStep(s, m);
      r.modelNode == Some(ModelNode(m.value, s.gameObject.value)) &&
      r.trace[..|s.trace|] == s.trace &&
      r.trace[|s.trace|..] ==
        (if s.modelNode.Some? then [ModelNodeDetached(s.modelNode.value)] else []) +
        [ModelBuilt(m.value, s.gameObject.value)]
  {
  }

  /** What `setLogic` appends to the trace: at most a removal of the CURRENT
      logic (only while the flag is false), then at most an addition of the NEW
      logic to the game object (only when both are present); the addition, if
      any, comes last. The model side is untouched. */
  lemma SetLogicEffects(s: ControlState, l: Option<Logic>)
    ensures var r := SetLogicStep(s, l);
      r.initialLogicAdded && r.logic == l &&
      r.gameObject == s.gameObject && r.model == s.model && r.modelNode == s.modelNode && r.id == s.id
    ensures var r := SetLogicStep(s, l);
      var removes := !s.initialLogicAdded && s.logic.Some?;
      var adds := s.gameObject.Some? && l.Some?;
      r.trace[..|s.trace|] == s.trace &&
      |r.trace| == |s.trace| + (if removes then 1 else 0) + (if adds then 1 else 0) &&
      (removes ==> r.trace[|s.trace|] == LogicRemoved(s.logic.value, s.gameObject)) &&
      (adds ==> r.trace[|r.trace| - 1] == LogicAdded(l.value, s.gameObject.value))
  {
  }

  /** `setSpatial(None)` once the flag is set (after the first `setLogic`, or
      for a control built without a logic) only forgets the game object: no
      model node, no removal and no addition. */
  lemma DetachIsSilent(s: ControlState)
    requires s.initialLogicAdded
    ensures SetSpatialStep(s, None) == Some(s.(gameObject := None))
  {
    assert s.trace + [] + [] == s.trace;
  }

  /** The flag test as written: a control constructed with logic `l`, attached
      to node `g`, runs `removeLogic(l)` BEFORE `l` was ever added, and once
      `l` is replaced by `l2` it is never removed. */
  lemma InitialLogicRemovedBeforeAdded(m: Model, l: Logic, l2: Logic, g: NodeId)
    ensures SetSpatialStep(ConstructedWith(Some(m), Some(l)), Some(NodeSpatial(g))).Some?
    ensures var s := SetSpatialStep(ConstructedWith(Some(m), Some(l)), Some(NodeSpatial(g))).value;
      s.trace == [ModelBuilt(m, g), LogicRemoved(l, Some(g)), LogicAdded(l, g)] &&
      SetLogicStep(s, Some(l2)).trace == s.trace + [LogicAdded(l2, g)]
  {
    var s0 := ConstructedWith(Some(m), Some(l));
    var a := s0.(gameObject := Some(g));
    assert SetModelStep(a, a.model).trace == [ModelBuilt(m, g)];
  }

  /** Every step leaves the flag set once it is set. */
  lemma StepKeepsFlag(s: ControlState, c: Call)
    requires s.initialLogicAdded
    ensures Step(s, c).initialLogicAdded
  {
  }

  /** After any `setLogic` call the flag is true, whatever calls follow. */
  lemma {:induction false} FlagSetForever(s: ControlState, l: Option<Logic>, calls: seq<Call>)
    ensures SetLogicStep(s, l).initialLogicAdded
    ensures Run(SetLogicStep(s, l), calls).initialLogicAdded
  {
    FlagStaysSet(SetLogicStep(s, l), calls);
  }

  lemma {:induction false} FlagStaysSet(s: ControlState, calls: seq<Call>)
    requires s.initialLogicAdded
    ensures Run(s, calls).initialLogicAdded
    decreases |calls|
  {
    if calls != [] {
      StepKeepsFlag(s, calls[0]);
      FlagStaysSet(Step(s, calls[0]), calls[1..]);
    }
  }

  /** The number of `removeLogic` calls in a trace. */
  function RemovalCount(t: seq<Effect>): (r: nat)
    decreases |t|
  {
    if t == [] then 0 else (if t[0].LogicRemoved? then 1 else 0) + RemovalCount(t[1..])
  }

  lemma {:induction false} RemovalCountAppend(t: seq<Effect>, u: seq<Effect>)
    ensures RemovalCount(t + u) == RemovalCount(t) + RemovalCount(u)
    decreases |t|
  {
    if t == [] {
      assert t + u == u;
    } else {
      assert (t + u)[1..] == t[1..] + u;
      RemovalCountAppend(t[1..], u);
    }
  }

  /** Every removal in the trace is of logic `l`. */
  ghost predicate RemovesOnly(t: seq<Effect>, l: Logic)
  {
    forall i :: 0 <= i < |t| && t[i].LogicRemoved? ==> t[i].logic == l
  }

  /** What holds of every state reached from a constructor given logic
      `initial`: while the flag is false the logic is still `initial` and no
      removal has happened; once it is set at most one has, and only when there
      was an initial logic; every removal so far was of `initial`. */
  ghost predicate RemovalInvariant(s: ControlState, initial: Option<Logic>)
  {
    RemovalCount(s.trace) <= (if initial.Some? && s.initialLogicAdded then 1 else 0) &&
    (!s.initialLogicAdded ==> initial.Some? && s.logic == initial) &&
    (forall i :: 0 <= i < |s.trace| && s.trace[i].LogicRemoved? ==> Some(s.trace[i].logic) == initial)
  }

  lemma SetModelKeepsRemovalInvariant(s: ControlState, m: Option<Model>, initial: Option<Logic>)
    requires RemovalInvariant(s, initial)
    ensures RemovalInvariant(SetModelStep(s, m), initial)
  {
    if s.gameObject.Some? && m.Some? {
      var detach := if s.modelNode.Some? then [ModelNodeDetached(s.modelNode.value)] else [];
      var tail := detach + [ModelBuilt(m.value, s.gameObject.value)];
      assert SetModelStep(s, m).trace == s.trace + tail;
      RemovalCountAppend(s.trace, tail);
      var built := [ModelBuilt(m.value, s.gameObject.value)];
      assert RemovalCount(built) == 0 by { assert built[1..] == []; }
      if s.modelNode.Some? {
        assert tail[1..] == built;
      } else {
        assert tail == built;
      }
    }
  }

  lemma SetLogicKeepsRemovalInvariant(s: ControlState, l: Option<Logic>, initial: Option<Logic>)
    requires RemovalInvariant(s, initial)
    ensures RemovalInvariant(SetLogicStep(s, l), initial)
  {
    var removal := if !s.initialLogicAdded && s.logic.Some? then [LogicRemoved(s.logic.value, s.gameObject)] else [];
    var addition := if s.gameObject.Some? && l.Some? then [LogicAdded(l.value, s.gameObject.value)] else [];
    var t := SetLogicStep(s, l).trace;
    assert t == s.trace + (removal + addition);
    RemovalCountAppend(s.trace, removal + addition);
    RemovalCountAppend(removal, addition);
    assert RemovalCount(addition) == 0;
    assert RemovalCount(removal) == (if removal == [] then 0 else 1) by {
      if removal != [] { assert removal[1..] == []; }
    }
    forall i | 0 <= i < |t| && t[i].LogicRemoved?
      ensures Some(t[i].logic) == initial
    {
      if i >= |s.trace| {
        assert t[i] == (removal + addition)[i - |s.trace|];
      }
    }
  }

  lemma StepKeepsRemovalInvariant(s: ControlState, c: Call, initial: Option<Logic>)
    requires RemovalInvariant(s, initial)
    ensures RemovalInvariant(Step(s, c), initial)
  {
    match c
    case CallSetSpatial(spatial) =>
      if !(spatial.Some? && spatial.value.LeafSpatial?) {
        var attached := s.(gameObject := if spatial.Some? then Some(spatial.value.node) else None);
        SetModelKeepsRemovalInvariant(attached, attached.model, initial);
        var withModel := SetModelStep(attached, attached.model);
        SetLogicKeepsRemovalInvariant(withModel, withModel.logic, initial);
      }
    case CallSetModel(m) => SetModelKeepsRemovalInvariant(s, m, initial);
    case CallSetLogic(l) => SetLogicKeepsRemovalInvariant(s, l, initial);
    case CallSetId(i) =>
  }

  lemma {:induction false} RunKeepsRemovalInvariant(s: ControlState, calls: seq<Call>, initial: Option<Logic>)
    requires RemovalInvariant(s, initial)
    ensures RemovalInvariant(Run(s, calls), initial)
    decreases |calls|
  {
    if calls != [] {
      StepKeepsRemovalInvariant(s, calls[0], initial);
      RunKeepsRemovalInvariant(Step(s, calls[0]), calls[1..], initial);
    }
  }

  /** Over a control's whole lifetime, `removeLogic` runs at most once, only
      for a control constructed with a logic, and always on that logic; a
      control constructed without one never calls it. */
  lemma AtMostOneRemoval(model: Option<Model>, logic: Option<Logic>, calls: seq<Call>)
    ensures RemovalCount(Run(ConstructedWith(model, logic), calls).trace) <= (if logic.Some? then 1 else 0)
    ensures logic.Some? ==> RemovesOnly(Run(ConstructedWith(model, logic), calls).trace, logic.value)
    ensures RemovalCount(Run(Constructed(), calls).trace) == 0
  {
    RunKeepsRemovalInvariant(ConstructedWith(model, logic), calls, logic);
    RunKeepsRemovalInvariant(Constructed(), calls, None);
    var t := Run(ConstructedWith(model, logic), calls).trace;
    if logic.Some? {
      forall i | 0 <= i < |t| && t[i].LogicRemoved? ensures t[i].logic == logic.value {
        assert Some(t[i].logic) == logic;
      }
    }
  }

  /** Once the flag is set, replacing the logic never removes the previous one. */
  lemma {:induction false} NoRemovalOnceFlagSet(s: ControlState, calls: seq<Call>)
    requires s.initialLogicAdded
    ensures RemovalCount(Run(s, calls).trace) == RemovalCount(s.trace)
  {
    var s' := s.(trace := []);
    RunKeepsRemovalInvariant(s', calls, None);
    TraceIndependent(s, calls);
    RemovalCountAppend(s.trace, Run(s', calls).trace);
  }

  /** Running calls from a state appends to its trace what running them from the
      same fields with an empty trace produces. */
  lemma {:induction false} TraceIndependent(s: ControlState, calls: seq<Call>)
    ensures Run(s, calls).trace == s.trace + Run(s.(trace := []), calls).trace
    decreases |calls|
  {
    if calls == [] {
      assert s.trace + [] == s.trace;
    } else {
      var c := calls[0];
      StepTraceIndependent(s, c);
      var n := Step(s, c);
      var n' := Step(s.(trace := []), c);
      assert n == n'.(trace := s.trace + n'.trace);
      TraceIndependent(n, calls[1..]);
      TraceIndependent(n', calls[1..]);
      assert n.(trace := []) == n'.(trace := []);
    }
  }

  lemma StepTraceIndependent(s: ControlState, c: Call)
    ensures Step(s, c) == Step(s.(trace := []), c).(trace := s.trace + Step(s.(trace := []), c).trace)
  {
    var e := s.(trace := []);
    match c
    case CallSetSpatial(spatial) =>
      if !(spatial.Some? && spatial.value.LeafSpatial?) {
        var a := s.(gameObject := if spatial.Some? then Some(spatial.value.node) else None);
        var ae := e.(gameObject := if spatial.Some? then Some(spatial.value.node) else None);
        var wm := SetModelStep(a, a.model);
        var wme := SetModelStep(ae, ae.model);
        assert wm == wme.(trace := s.trace + wme.trace);
        assert SetLogicStep(wm, wm.logic) == SetLogicStep(wme, wme.logic).(trace := s.trace + SetLogicStep(wme, wme.logic).trace);
      } else {
        assert s.trace + [] == s.trace;
      }
    case CallSetModel(m) =>
      if !(s.gameObject.Some? && m.Some?) { assert s.trace + [] == s.trace; }
    case CallSetLogic(l) =>
    case CallSetId(i) =>
      assert s.trace + [] == s.trace;
  }

  /** The id the last `setId` call set, if there was one. */
  function LastSetId(calls: seq<Call>): (r: Option<int>)
    decreases |calls|
  {
    if calls == [] then None
    else
      var later := LastSetId(calls[1..]);
      if later.Some? then later
      else if calls[0].CallSetId? then Some(calls[0].id)
      else None
  }

  /** `getId` returns what the last `setId` call stored; a freshly constructed
      control returns 0. */
  lemma {:induction false} IdIsLastSetId(s: ControlState, calls: seq<Call>)
    ensures Run(s, calls).id == (if LastSetId(calls).Some? then LastSetId(calls).value else s.id)
    decreases |calls|
  {
    if calls != [] {
      IdIsLastSetId(Step(s, calls[0]), calls[1..]);
    }
  }

  lemma ConstructedIdIsZero(model: Option<Model>, logic: Option<Logic>, calls: seq<Call>)
    requires LastSetId(calls) == None
    ensures Run(Constructed(), calls).id == 0
    ensures Run(ConstructedWith(model, logic), calls).id == 0
  {
    IdIsLastSetId(Constructed(), calls);
    IdIsLastSetId(ConstructedWith(model, logic), calls);
  }

  // ---------------------------------------------------------------------------
  // The control as an object whose setters update its fields in place.
  // ---------------------------------------------------------------------------

  class Control {
    var gameObject: Option<NodeId>
    var model: Option<Model>
    var modelNode: Option<ModelNode>
    var logic: Option<Logic>
    var initialLogicAdded: bool
    var id: int
    /** The calls made so far into Model and Logic code. */
    var trace: seq<Effect>

    function State(): (r: ControlState)
      reads this
    {
      ControlState(gameObject, model, modelNode, logic, initialLogicAdded, id, trace)
    }

    /** `GameObjectControl(world)`. */
    constructor ()
      ensures State() == Constructed()
      ensures initialLogicAdded && id == 0 && trace == []
    {
      gameObject, model, modelNode, logic := None, None, None, None;
      initialLogicAdded := true;
      id := 0;
      trace := [];
    }

    /** `GameObjectControl(world, model, logic)`. */
    constructor WithDescriptors(model: Option<Model>, logic: Option<Logic>)
      ensures State() == ConstructedWith(model, logic)
      ensures this.model == model && this.logic == logic
      ensures initialLogicAdded <==> logic == None
    {
      gameObject, modelNode := None, None;
      this.model := model;
      this.logic := logic;
      initialLogicAdded := true;
      if logic != None {
        initialLogicAdded := false;
      }
      id := 0;
      trace := [];
    }

    method SetSpatial(spatial: Option<Spatial>) returns (ok: bool)
      modifies this
      ensures ok <==> !(spatial.Some? && spatial.value.LeafSpatial?)
      ensures !ok ==> State() == old(State())
      ensures ok ==> gameObject == (if spatial.Some? then Some(spatial.value.node) else None)
      ensures ok ==> State() == SetLogicStep(SetModelStep(old(State()).(gameObject := gameObject), old(model)), old(logic))
      ensures SetSpatialStep(old(State()), spatial) == if ok then Some(State()) else None
    {
      if spatial.Some? && spatial.value.LeafSpatial? {
        return false;
      }
      gameObject := if spatial.Some? then Some(spatial.value.node) else None;
      SetModel(model);
      SetLogic(logic);
      ok := true;
    }

    method SetModel(m: Option<Model>)
      modifies this
      ensures model == m
      ensures old(gameObject).Some? && m.Some? ==>
        modelNode == Some(ModelNode(m.value, old(gameObject).value)) &&
        trace == old(trace) + (if old(modelNode).Some? then [ModelNodeDetached(old(modelNode).value)] else []) +
                 [ModelBuilt(m.value, old(gameObject).value)]
      ensures !(old(gameObject).Some? && m.Some?) ==> modelNode == old(modelNode) && trace == old(trace)
      ensures State() == SetModelStep(old(State()), m)
    {
      model := m;
      if gameObject != None && m != None {
        var detach := [];
        if modelNode != None {
          detach := [ModelNodeDetached(modelNode.value)];
        }
        modelNode := Some(ModelNode(m.value, gameObject.value));
        trace := trace + detach + [ModelBuilt(m.value, gameObject.value)];
      }
    }

    method SetLogic(l: Option<Logic>)
      modifies this
      ensures initialLogicAdded && logic == l
      ensures State() == SetLogicStep(old(State()), l)
    {
      if !initialLogicAdded && logic != None {
        trace := trace + [LogicRemoved(logic.value, gameObject)];
      }
      initialLogicAdded := true;
      logic := l;
      if gameObject != None && l != None {
        trace := trace + [LogicAdded(l.value, gameObject.value)];
      }
    }

    method GetId() returns (r: int)
      ensures r == State().id
    {
      r := id;
    }

    /** Called by the world when the object is registered. */
    method SetId(newId: int)
      modifies this
      ensures State() == old(State()).(id := newId)
    {
      id := newId;
    }
  }
}

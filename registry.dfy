/** The world registry: a map from object id to game object. World.java is not
    part of this model; the contracts of the methods below are the assumptions
    the rest of the model makes about it, and the bodies are the least
    committal ones that meet them. */
module Registry {
  import opened Descriptors

  /** What the registry holds for an object: the Logic and Model carried by the
      controls of its node. */
  datatype GameObject = GameObject(logic: Option<Logic>, model: Option<Model>)

  /** Some upper bound of a finite set of ids. */
  lemma {:induction false} IdBound(ids: set<int>) returns (b: int)
    ensures forall k :: k in ids ==> k < b
  {
    if ids == {} {
      b := 0;
    } else {
      assert exists y :: y in ids by {
        if forall y :: y !in ids { assert false; }
      }
      var x :| x in ids;
      var rest := IdBound(ids - {x});
      b := if rest > x + 1 then rest else x + 1;
      forall k | k in ids ensures k < b {
        if k != x { assert k in ids - {x}; }
      }
    }
  }

  class World {
    var objects: map<int, GameObject>

    constructor ()
      ensures objects == map[]
    {
      objects := map[];
    }

    /** Assumption: `addGameObject(obj)` registers the object under a
        non-negative id that is not currently registered, and returns it. */
    method AddGameObject(obj: GameObject) returns (id: int)
      modifies this
      ensures 0 <= id && id !in old(objects)
      ensures objects == old(objects)[id := obj]
    {
      ghost var b := IdBound(objects.Keys);
      assert (if b < 0 then 0 else b) !in objects;
      id :| 0 <= id && id !in objects;
      objects := objects[id := obj];
    }

    /** Assumption: `addGameObject(obj, id)` registers the object under the
        given id, and fails (leaving the registry unchanged) when that id is
        already registered. */
    method AddGameObjectWithId(obj: GameObject, id: int) returns (ok: bool)
      modifies this
      ensures ok <==> id !in old(objects)
      ensures objects == if ok then old(objects)[id := obj] else old(objects)
    {
      ok := id !in objects;
      if ok {
        objects := objects[id := obj];
      }
    }

    /** Assumption: `removeGameObject(id)` deregisters the id and reports the
        object it held, so that listeners are told; an absent id is a no-op
        with no notification. */
    method RemoveGameObject(id: int) returns (removed: Option<GameObject>)
      modifies this
      ensures removed == if id in old(objects) then Some(old(objects)[id]) else None
      ensures objects == old(objects) - {id}
    {
      removed := if id in objects then Some(objects[id]) else None;
      objects := objects - {id};
    }
  }
}

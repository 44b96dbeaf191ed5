/** The capability descriptors a game object carries: a Logic (behaviour) and a
    Model (appearance). Their concrete effects (physics controls, geometry) are
    produced by engine code outside this model, so here they are closed sets of
    tags. A Java reference that may be null is an Option. */
module Descriptors {

  datatype Option<+T> = None | Some(value: T)

  /** The Logic variants the server creates. Their float parameters (start
      positions, motion targets) are not modelled. */
  datatype Logic = PlayerLogic | ObstacleLogic | StaticPhysicsLogic

  /** The Model variants the server creates. Sizes and colours are not modelled. */
  datatype Model = GroundModel | ObstacleModel | PlayerModel
}

/** The animatable state that tasks read and write. */
module Entities {

  /** A drawn object. Tasks write its fields in place; the renderer reads them. */
  class Entity {
    var x: real
    var y: real
    var rotation: real
    var scale: real

    /** A new entity sits at the origin, unrotated, at unit scale. */
    constructor ()
      ensures x == 0.0 && y == 0.0 && rotation == 0.0 && scale == 1.0
    {
      x, y, rotation, scale := 0.0, 0.0, 0.0, 1.0;
    }
  }

  /** A target position handed to a move. */
  datatype Point = Point(x: real, y: real)

  /** The value of one entity's animatable fields at one instant. */
  datatype Pose = Pose(x: real, y: real, rotation: real, scale: real)

  /** The value of every entity that a task tree may touch. */
  type World = map<Entity, Pose>

  function PoseOf(en: Entity): (p: Pose)
    reads en
    ensures p.x == en.x && p.y == en.y && p.rotation == en.rotation && p.scale == en.scale
  {
    Pose(en.x, en.y, en.rotation, en.scale)
  }

  /** The current value of the entities in `dom`, read from the heap. */
  function Snapshot(dom: set<Entity>): (w: World)
    reads dom
    ensures w.Keys == dom
    ensures forall en :: en in dom ==> w[en] == PoseOf(en)
  {
    map en | en in dom :: PoseOf(en)
  }
}

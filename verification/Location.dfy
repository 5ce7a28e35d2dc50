/** Where an entity is: partial location updates, and the positions a handover is checked with. */
module Location {
  import opened Prelude

  /** A location of the engine; coordinates that were never sent are absent and read as 0. */
  datatype Vector = Vector(x: Option<real>, y: Option<real>, z: Option<real>)

  /** A position with the y axis up. */
  datatype SpatialInfo = SpatialInfo(x: real, y: real, z: real)

  function Get(coordinate: Option<real>): real {
    if coordinate.Some? then coordinate.value else 0.0
  }

  /** The engine's z axis is up. */
  function ToSpatialInfo(v: Vector): SpatialInfo {
    SpatialInfo(Get(v.x), Get(v.z), Get(v.y))
  }

  function Override(was: Option<real>, update: Option<real>): Option<real> {
    if update.Some? then update else was
  }

  /** Merging a location message: the coordinates it has replace the old ones. */
  function MergeVector(was: Vector, update: Vector): Vector {
    Vector(Override(was.x, update.x), Override(was.y, update.y), Override(was.z, update.z))
  }

  /** Whether an update moves an entity, and between which positions. */
  function CheckEntityHandover(newLoc: Vector, oldLoc: Vector): Option<(SpatialInfo, SpatialInfo)> {
    var newX := if newLoc.x.Some? then newLoc.x.value else Get(oldLoc.x);
    var newY := if newLoc.y.Some? then newLoc.y.value else Get(oldLoc.y);
    var newZ := if newLoc.z.Some? then newLoc.z.value else Get(oldLoc.z);
    if newX != Get(oldLoc.x) || newY != Get(oldLoc.y) || newZ != Get(oldLoc.z) then
      Some((SpatialInfo(Get(oldLoc.x), Get(oldLoc.z), Get(oldLoc.y)), SpatialInfo(newX, newZ, newY)))
    else None
  }

  /** The positions chain: the new one is that of the location the merge will store. */
  lemma PositionsChain(newLoc: Vector, oldLoc: Vector)
    ensures var (before, after) := (ToSpatialInfo(oldLoc), ToSpatialInfo(MergeVector(oldLoc, newLoc)));
            CheckEntityHandover(newLoc, oldLoc) == if before == after then None else Some((before, after))
  {
  }

  /**
   What an entity channel's data says about its place: the location of the actor and that of its
   scene component, and whether the data names the entity by an object reference.
   */
  datatype EntityData = EntityData(named: bool, actor: Option<Vector>, scene: Option<Vector>)

  function MergeLocation(was: Option<Vector>, update: Option<Vector>): Option<Vector> {
    if was.Some? && update.Some? then Some(MergeVector(was.value, update.value))
    else if update.Some? then update else was
  }

  /** The update's object reference is dropped. */
  function MergeData(was: EntityData, update: EntityData): EntityData {
    EntityData(was.named, MergeLocation(was.actor, update.actor), MergeLocation(was.scene, update.scene))
  }

  function CheckLocation(was: Option<Vector>, update: Option<Vector>): Option<(SpatialInfo, SpatialInfo)> {
    if was.Some? && update.Some? then CheckEntityHandover(update.value, was.value) else None
  }

  /** The scene component's location is looked at only when the actor's did not change. */
  function CheckData(was: EntityData, update: EntityData): Option<(SpatialInfo, SpatialInfo)> {
    if !was.named then None
    else
      var byActor := CheckLocation(was.actor, update.actor);
      if byActor.Some? then byActor else CheckLocation(was.scene, update.scene)
  }

  /** Where the entity is: at its actor's location, or at its scene component's if it has no other. */
  function Place(d: EntityData): Option<Vector> {
    if d.actor.Some? then d.actor else d.scene
  }

  /** The data has a single location. */
  predicate OnePlace(d: EntityData) {
    d.actor.Some? != d.scene.Some?
  }

  /** While the data keeps a single location, the positions checked are those before and after the merge. */
  lemma OnePlaceChains(was: EntityData, update: EntityData)
    requires was.named && OnePlace(was) && OnePlace(MergeData(was, update))
    ensures var before, after := ToSpatialInfo(Place(was).value), ToSpatialInfo(Place(MergeData(was, update)).value);
            CheckData(was, update) == if before == after then None else Some((before, after))
  {
    if was.actor.Some? && update.actor.Some? {
      PositionsChain(update.actor.value, was.actor.value);
    } else if was.scene.Some? && update.scene.Some? {
      PositionsChain(update.scene.value, was.scene.value);
    }
  }

  /** The move of one location that the data has before and after a merge. */
  function MoveOf(was: Option<Vector>, merged: Option<Vector>): Option<(SpatialInfo, SpatialInfo)> {
    if was.Some? && merged.Some? && ToSpatialInfo(was.value) != ToSpatialInfo(merged.value) then
      Some((ToSpatialInfo(was.value), ToSpatialInfo(merged.value)))
    else None
  }

  /** With two locations, the actor's move counts, and the scene component's if the actor's did not change. */
  lemma ActorsMoveComesFirst(was: EntityData, update: EntityData)
    ensures var merged := MergeData(was, update);
            var byActor, byScene := MoveOf(was.actor, merged.actor), MoveOf(was.scene, merged.scene);
            CheckData(was, update) == if !was.named then None else if byActor.Some? then byActor else byScene
  {
    if was.actor.Some? && update.actor.Some? {
      PositionsChain(update.actor.value, was.actor.value);
    }
    if was.scene.Some? && update.scene.Some? {
      PositionsChain(update.scene.value, was.scene.value);
    }
  }

  /** A merge keeps the coordinates, and the locations, that the update does not name. */
  lemma MergeIsPartial(was: EntityData, update: EntityData)
    ensures var merged := MergeData(was, update);
            && (update.actor.None? ==> merged.actor == was.actor) && (update.scene.None? ==> merged.scene == was.scene)
            && (was.actor.None? ==> merged.actor == update.actor) && (was.scene.None? ==> merged.scene == update.scene)
            && merged.named == was.named
    ensures forall v: Vector ::
              MergeVector(v, Vector(None, None, None)) == v && MergeVector(Vector(None, None, None), v) == v
    ensures forall v: Vector, w: Vector :: w.x.Some? && w.y.Some? && w.z.Some? ==> MergeVector(v, w) == w
  {
  }

  /** The second coordinate becomes the third, and what was never sent reads as 0. */
  lemma AxesAndDefaults()
    ensures ToSpatialInfo(Vector(Some(1.0), Some(2.0), Some(3.0))) == SpatialInfo(1.0, 3.0, 2.0)
    ensures ToSpatialInfo(Vector(None, None, None)) == SpatialInfo(0.0, 0.0, 0.0)
  {
  }
}

/** Allocating channel ids, with cached flags for "all ids are taken". */
module ChannelIds {
  import opened Prelude

  type ChannelId = nat

  // ---- the next free id ----

  /** The id looked at after `count` others, going up from `start` and from `max` on to `min`. */
  function Nth(start: nat, min: nat, max: nat, count: nat): int {
    if start + count <= max then start + count else min + count - (max - start + 1)
  }

  /** The id is among the first `count` looked at. */
  predicate Among(start: nat, min: nat, max: nat, count: nat, id: ChannelId) {
    (start <= id <= max && id < start + count) || (min <= id <= max && id < min + count - (max - start + 1))
  }

  /** Every id of the range is live. */
  ghost predicate Full(live: set<ChannelId>, min: nat, max: nat) {
    forall id :: min <= id <= max ==> id in live
  }

  /** A free id of the range, with no other free one between `start` and it, in cyclic order. */
  ghost predicate FirstFree(live: set<ChannelId>, start: nat, min: nat, max: nat, id: ChannelId) {
    && min <= id <= max && id !in live
    && if start <= id then forall k :: start <= k < id ==> k in live
       else Full(live, start, max) && forall k :: min <= k < id ==> k in live
  }

  /** What a search for a free id finds. */
  ghost predicate Found(live: set<ChannelId>, start: nat, min: nat, max: nat, r: Option<ChannelId>) {
    && (min <= start ==> (r.None? <==> Full(live, min, max)) && (r.Some? ==> FirstFree(live, start, min, max, r.value)))
    && (start + 1 == min && start !in live ==> r == Some(start))
    && (start + 1 == min && start in live ==>
          && (r.None? <==> forall id :: min <= id < max ==> id in live)
          && (r.Some? ==> FirstFree(live, start, min, max, r.value) && r.value < max))
  }

  /**
   The first free id in cyclic order, or none iff the range is full. That is so when the search
   starts in the range. From just below the range it finds that very id if it is free, and it
   never looks at the last one.
   */
  method GetNextId(live: set<ChannelId>, start: nat, min: nat, max: nat) returns (r: Option<ChannelId>)
    requires start <= max && min <= max < 0xffff_ffff
    ensures Found(live, start, min, max, r)
  {
    var current := start;
    var i := min;
    while i <= max
      invariant min <= i <= max + 1
      invariant current == Nth(start, min, max, i - min)
      invariant forall id :: Among(start, min, max, i - min, id) ==> id in live
    {
      if current !in live {
        return Some(current);
      }
      if current < max {
        current := current + 1;
      } else {
        current := min;
      }
      i := i + 1;
    }
    return None;
  }

  // ---- channels ----

  datatype ChannelType = Global | Spatial | Entity | Other

  const GLOBAL_ID: ChannelId := 0

  /** Where the spatial and the entity ids start. The defaults are 0x10000 and 0x80000. */
  datatype Ranges = Ranges(spatial: ChannelId, entity: ChannelId)

  ghost predicate Proper(r: Ranges) {
    1 < r.spatial < r.entity < 0xffff_ffff
  }

  class Channels {
    const ranges: Ranges
    var types: map<ChannelId, ChannelType>
    var removing: set<ChannelId>   // channels that wait to be removed
    var next: ChannelId
    var nextSpatial: ChannelId
    var full: bool          // no id below the spatial ones is free
    var spatialFull: bool

    /**
     The searches start in their ranges or, for the non-spatial ids, just below. Ids from `entity` on
     are entities'.
     */
    ghost predicate Valid()
      reads this
    {
      && Proper(ranges)
      && next < ranges.spatial && ranges.spatial <= nextSpatial < ranges.entity
      && forall id <- types.Keys ::
           && (types[id].Spatial? <==> ranges.spatial <= id < ranges.entity)
           && (ranges.entity <= id ==> types[id].Entity?)
    }

    /**
     A flag is set only while its range is full, and the search for non-spatial ids starts just below its
     range only while that is empty, and has an id besides the last.
     */
    ghost predicate Accurate()
      reads this
    {
      && GLOBAL_ID in types && 2 < ranges.spatial < ranges.entity
      && (next == 0 ==> forall id: ChannelId :: 1 <= id < ranges.spatial ==> id !in types)
      && (full ==> Full(types.Keys, 1, ranges.spatial - 1))
      && (spatialFull ==> Full(types.Keys, ranges.spatial, ranges.entity - 1))
    }

    /** At the start there is only the GLOBAL channel, whose id is outside all ranges. */
    constructor (r: Ranges)
      requires Proper(r)
      ensures Valid() && ranges == r && types == map[GLOBAL_ID := Global] && removing == {}
      ensures next == 0 && !full && !spatialFull
      ensures 2 < r.spatial ==> Accurate()
    {
      ranges := r;
      types, removing := map[], {};
      next, nextSpatial, full, spatialFull := 0, r.spatial, false, false;
      new;
      var id := GetNextId(types.Keys, next, 1, r.spatial - 1);
      next := id.value;
      types := types[next := Global];
    }

    /** The range of a type's ids. A second GLOBAL channel is not made. */
    function Low(t: ChannelType): ChannelId {
      if t.Spatial? then ranges.spatial else 1
    }

    function High(t: ChannelType): ChannelId
      requires 1 < ranges.spatial < ranges.entity
    {
      if t.Spatial? then ranges.entity - 1 else ranges.spatial - 1
    }

    /**
     A new channel gets what the search finds, unless the flag says that there is nothing to find. While
     the flags are accurate, that is the first free id of the range after the latest one, and there
     is an error iff the range is full.
     */
    method CreateChannel(t: ChannelType) returns (r: Option<ChannelId>)
      requires Valid()
      modifies this
      ensures Valid() && (old(Accurate()) ==> Accurate())
      ensures t.Global? || old(if t.Spatial? then spatialFull else full) ==> r.None?
      ensures !t.Global? && !old(if t.Spatial? then spatialFull else full) ==>
                Found(old(types).Keys, if t.Spatial? then old(nextSpatial) else old(next), Low(t), High(t), r)
      ensures types == (if r.Some? then old(types)[r.value := t] else old(types)) && removing == old(removing)
      ensures next == if r.Some? && !t.Spatial? then r.value else old(next)
      ensures nextSpatial == if r.Some? && t.Spatial? then r.value else old(nextSpatial)
      ensures full == (old(full) || (r.None? && !t.Spatial? && !t.Global?))
      ensures spatialFull == (old(spatialFull) || (r.None? && t.Spatial?))
      ensures old(Accurate()) && !t.Global? ==>
                && (r.None? <==> Full(old(types).Keys, Low(t), High(t)))
                && (r.Some? ==>
                    FirstFree(old(types).Keys, old(if t.Spatial? then nextSpatial else next), Low(t), High(t), r.value))
    {
      if t.Global? {
        return None;
      }
      assert next == 0 ==> 1 in types.Keys || 1 !in types.Keys;
      if t.Spatial? {
        if spatialFull {
          return None;
        }
        r := GetNextId(types.Keys, nextSpatial, ranges.spatial, ranges.entity - 1);
        if r.Some? {
          nextSpatial := r.value;
        } else {
          spatialFull := true;
        }
      } else {
        if full {
          return None;
        }
        r := GetNextId(types.Keys, next, 1, ranges.spatial - 1);
        if r.Some? {
          next := r.value;
        } else {
          full := true;
        }
      }
      if r.Some? {
        types := types[r.value := t];
      }
    }

    /**
     An entity's channel has the entity's id, if that is an entity id and not in use but for a channel
     being removed.
     */
    method CreateEntityChannel(id: ChannelId) returns (ok: bool)
      requires Valid()
      modifies this`types, this`removing
      ensures Valid() && (old(Accurate()) ==> Accurate())
      ensures ok <==> id >= ranges.entity && (id !in old(types) || id in old(removing))
      ensures types == if ok then old(types)[id := Entity] else old(types)
      ensures removing == if ok then old(removing) - {id} else old(removing)
    {
      if id < ranges.entity || (id in types && id !in removing) {
        return false;
      }
      types := types[id := Entity];
      removing := removing - {id};
      return true;
    }

    /** The spatial controller makes channels with the ids of grid cells, even over existing ones. */
    method CreateCellChannel(id: ChannelId)
      requires Valid() && ranges.spatial <= id < ranges.entity
      modifies this`types, this`removing
      ensures Valid() && (old(Accurate()) ==> Accurate())
      ensures types == old(types)[id := Spatial] && removing == old(removing) - {id}
    {
      types := types[id := Spatial];
      removing := removing - {id};
    }

    /** A channel that has lost its owner waits to be removed. */
    method MarkRemoving(id: ChannelId)
      requires Valid() && id in types
      modifies this`removing
      ensures Valid() && (old(Accurate()) ==> Accurate()) && removing == old(removing) + {id}
    {
      removing := removing + {id};
    }

    /**
     A removed channel's id is where the next search of its range starts. That keeps the flags accurate
     iff it is not the GLOBAL channel, and not one of type ENTITY among the non-spatial ids while
     these are flagged full: the flag of those stays.
     */
    method RemoveChannel(id: ChannelId)
      requires Valid() && id in types
      modifies this
      ensures Valid() && types == old(types) - {id} && removing == old(removing) - {id}
      ensures old(Accurate()) ==>
                (Accurate() <==> id != GLOBAL_ID && !(old(types)[id].Entity? && id < ranges.spatial && old(full)))
      ensures old(types)[id].Spatial? ==> !spatialFull && nextSpatial == id && full == old(full) && next == old(next)
      ensures old(types)[id].Entity? ==>
                && full == old(full) && next == old(next)
                && spatialFull == old(spatialFull) && nextSpatial == old(nextSpatial)
      ensures !old(types)[id].Spatial? && !old(types)[id].Entity? ==>
                !full && next == id && spatialFull == old(spatialFull) && nextSpatial == old(nextSpatial)
    {
      var t := types[id];
      assert id in types.Keys;
      types := types - {id};
      removing := removing - {id};
      assert id !in types.Keys;
      if t.Spatial? {
        spatialFull := false;
        nextSpatial := id;
      } else if t.Entity? {
      } else {
        full := false;
        next := id;
      }
    }
  }

  // ---- examples ----

  /** A removed channel of type ENTITY leaves its id unused: the channels stay flagged full. */
  method StaleFlag() returns (freed: ChannelId, r: Option<ChannelId>, channels: Channels)
    ensures channels.ranges == Ranges(3, 4) && freed == 2 && freed !in channels.types && r.None?
  {
    channels := new Channels(Ranges(3, 4));
    assert 0 in channels.types.Keys && 1 !in channels.types.Keys;
    var first := channels.CreateChannel(Other);
    assert first == Some(1) && channels.types.Keys == {0, 1};
    assert 2 !in channels.types.Keys;
    var second := channels.CreateChannel(Entity);
    assert second == Some(2);
    var none := channels.CreateChannel(Other);
    freed := second.value;
    channels.RemoveChannel(freed);
    r := channels.CreateChannel(Other);
  }

  /** With a single non-spatial id, the first search gives up before it looks at it. */
  method OnlyIdIsNeverUsed() returns (r: Option<ChannelId>, channels: Channels)
    ensures channels.ranges == Ranges(2, 3) && 1 !in channels.types && r.None?
  {
    channels := new Channels(Ranges(2, 3));
    r := channels.CreateChannel(Other);
  }
}

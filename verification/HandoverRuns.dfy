/** What every run of moves and queued callbacks keeps: where entities are, and who may write them. */
module HandoverRuns {
  import opened Prelude
  import opened SpatialGrid
  import opened Location
  import opened Handover

  // ---- where entities are ----

  /** The cell of an entity's place. */
  function CellOf(g: Grid, e: EntityChannel): Result<ChannelId> {
    if e.data.Some? && Place(e.data.value).Some? then
      var info := ToSpatialInfo(Place(e.data.value).value);
      GetChannelId(g, Point(info.x, info.z))
    else Err
  }

  predicate Tracked(s: State, e: EntityId) {
    e in s.entities && s.entities[e].data.Some? && Place(s.entities[e].data.value).Some?
  }

  predicate HasChannel(s: State, cell: Result<ChannelId>) {
    cell.Ok? && cell.value in s.cells
  }

  /** The channel of a cell, if there is one. */
  function ChannelOf(s: State, cell: Result<ChannelId>): set<ChannelId> {
    if HasChannel(s, cell) then {cell.value} else {}
  }

  /** The channels whose data has the entity once all queued callbacks have run. */
  function Homes(s: State, e: EntityId): set<ChannelId> {
    set c | c in s.cells && e in Settled(s.cells[c])
  }

  /** The entity is in the data of the channel of its cell, and of no other. */
  ghost predicate InItsCell(g: Grid, s: State, e: EntityId)
    requires e in s.entities
  {
    Homes(s, e) == ChannelOf(s, CellOf(g, s.entities[e]))
  }

  // ---- one handover ----

  lemma SettledPosted(c: Cell, t: Task)
    ensures Settled(Posted(c, t)) == Perform(t, Settled(c))
  {
    PerformSnoc(c.queue, t, c.present);
  }

  /** A handover takes its party out of the source, and puts those with data into the destination. */
  lemma MovedHomes(s: State, src: ChannelId, dst: ChannelId, party: set<EntityId>, e: EntityId)
    requires src in s.cells && dst in s.cells && src != dst
    ensures Homes(Moved(s, src, dst, party), e) ==
              if e !in party then Homes(s, e)
              else if e in WithData(s, party) then Homes(s, e) - {src} + {dst}
              else Homes(s, e) - {src}
  {
    SettledPosted(s.cells[src], Remove(party));
    SettledPosted(s.cells[dst], Add(WithData(s, party)));
    hide Settled, HandedOver, Posted, WithData;
  }

  /** The member is in at most the source and the destination, or, without data, in the destination already. */
  predicate Movable(s: State, src: ChannelId, dst: ChannelId, e: EntityId) {
    if e in s.entities && s.entities[e].data.Some? then Homes(s, e) <= {src, dst} else Homes(s, e) - {src} == {dst}
  }

  /** A whole party ends up in the destination and nowhere else iff each of its members is movable. */
  lemma PartySettlesTogetherIff(s: State, src: ChannelId, dst: ChannelId, party: set<EntityId>)
    requires src in s.cells && dst in s.cells && src != dst
    ensures (forall e <- party :: Homes(Moved(s, src, dst, party), e) == {dst}) <==>
            (forall e <- party :: Movable(s, src, dst, e))
  {
    forall e | e in party ensures Homes(Moved(s, src, dst, party), e) == {dst} <==> Movable(s, src, dst, e) {
      MovedHomes(s, src, dst, party, e);
      WithinTwo(Homes(s, e), src, dst);
    }
    hide Homes, Moved, Movable;
  }

  lemma WithinTwo(ids: set<ChannelId>, a: ChannelId, b: ChannelId)
    ensures ids - {a} + {b} == {b} <==> ids <= {a, b}
  {
    if ids - {a} + {b} == {b} {
      forall id | id in ids ensures id in {a, b} {
        assert id == a || id in ids - {a} + {b};
      }
    }
  }

  // ---- one update ----

  /** The entity channel's data after an update. */
  function UpdatedData(e: EntityChannel, update: EntityData): EntityData {
    if e.data.Some? then MergeData(e.data.value, update) else update
  }

  function UpdatedChannel(e: EntityChannel, update: EntityData): EntityChannel {
    e.(data := Some(UpdatedData(e, update)))
  }

  /** The state with an update merged, before a move is notified. */
  function WithUpdate(s: State, e: EntityId, update: EntityData): State
    requires e in s.entities
  {
    s.(entities := s.entities[e := UpdatedChannel(s.entities[e], update)])
  }

  /** Between which channels the update will hand over the entity's party. */
  function Crossing(g: Grid, s: State, e: EntityId, update: EntityData): Option<(ChannelId, ChannelId)> {
    if e in s.entities && s.entities[e].data.Some? then
      var move := CheckData(s.entities[e].data.value, update);
      if move.Some? && Crosses(g, s, move.value.0, move.value.1, e) then
        Some((GetChannelId(g, Point(move.value.0.x, move.value.0.z)).value,
              GetChannelId(g, Point(move.value.1.x, move.value.1.z)).value))
      else None
    else None
  }

  lemma MergedIs(g: Grid, s: State, e: EntityId, update: EntityData)
    requires e in s.entities
    ensures var (s1, x) := (WithUpdate(s, e, update), Crossing(g, s, e, update));
            && (x.Some? ==> x.value.0 in s.cells && x.value.1 in s.cells && x.value.0 != x.value.1)
            && Merged(g, s, e, update) ==
                 if x.None? then s1 else Moved(s1, x.value.0, x.value.1, Party(s, e))
  {
    hide CheckData, MergeData, GetChannelId, Moved;
  }

  /** Both cells have the same owner, which is open. */
  predicate SameOpenOwner(s: State, src: ChannelId, dst: ChannelId)
    requires src in s.cells && dst in s.cells
  {
    s.cells[src].owner.Some? && s.cells[src].owner == s.cells[dst].owner && s.cells[src].owner.value !in s.closing
  }

  /**
   An update that moves an entity from one cell to another, both with channels, takes its whole group along: each
   member leaves the source, enters the destination if it has data, and gets the destination's owner, unless that
   is the source's, and open. Nobody else moves or gets another owner.
   */
  lemma GroupIsHandedOver(g: Grid, s: State, e: EntityId, update: EntityData, before: SpatialInfo, after: SpatialInfo,
                          d: EntityId)
    requires e in s.entities && s.entities[e].data.Some? && e in s.groups
    requires CheckData(s.entities[e].data.value, update) == Some((before, after))
    requires var src, dst := GetChannelId(g, Point(before.x, before.z)), GetChannelId(g, Point(after.x, after.z));
             src.Ok? && dst.Ok? && src != dst && src.value in s.cells && dst.value in s.cells
    ensures var src := GetChannelId(g, Point(before.x, before.z)).value;
            var dst := GetChannelId(g, Point(after.x, after.z)).value;
            var s' := Merged(g, s, e, update);
            && Homes(s', d) == (if d !in s.groups[e] then Homes(s, d)
                                else if d in s.entities && s.entities[d].data.Some? then Homes(s, d) - {src} + {dst}
                                else Homes(s, d) - {src})
            && (d in s.entities ==>
                  && d in s'.entities
                  && s'.entities[d].owner ==
                       (if d in s.groups[e] && !SameOpenOwner(s, src, dst) then s.cells[dst].owner
                        else s.entities[d].owner)
                  && (d !in s.groups[e] ==> s'.entities[d].subs == s.entities[d].subs)
                  && (SameOpenOwner(s, src, dst) ==> s.entities[d].subs.Keys <= s'.entities[d].subs.Keys))
  {
    var s1 := WithUpdate(s, e, update);
    var src, dst := GetChannelId(g, Point(before.x, before.z)).value, GetChannelId(g, Point(after.x, after.z)).value;
    MergedIs(g, s, e, update);
    assert Crossing(g, s, e, update) == if s.groups[e] == {} then None else Some((src, dst));
    assert Homes(s1, d) == Homes(s, d);
    hide GetChannelId, CheckData, Merged, Crossing;
    MovedHomes(s1, src, dst, s.groups[e], d);
    if d in s.entities {
      GroupOwners(s1, src, dst, s.groups[e], d);
    }
    hide Homes, Moved, HandedOver, UpdatedData;
  }

  lemma GroupOwners(s: State, src: ChannelId, dst: ChannelId, party: set<EntityId>, d: EntityId)
    requires src in s.cells && dst in s.cells && src != dst && d in s.entities
    ensures var (was, now) := (s.entities[d], Moved(s, src, dst, party).entities[d]);
            && now.owner == (if d in party && !SameOpenOwner(s, src, dst) then s.cells[dst].owner else was.owner)
            && (d !in party ==> now.subs == was.subs)
            && (SameOpenOwner(s, src, dst) ==> was.subs.Keys <= now.subs.Keys)
  {
    hide Posted, WithData;
  }

  /** Where an entity will belong after an update of `e`. */
  function CellAfter(g: Grid, s: State, e: EntityId, update: EntityData, d: EntityId): Result<ChannelId>
    requires e in s.entities && d in s.entities
  {
    CellOf(g, if d == e then UpdatedChannel(s.entities[e], update) else s.entities[d])
  }

  /**
   The update takes `d` along to where it will belong: a handover brings it from the source or the
   destination to the destination, which is its cell, or else the channel of its cell stays the same.
   */
  predicate Follows(g: Grid, s: State, e: EntityId, update: EntityData, d: EntityId)
    requires e in s.entities && d in s.entities
  {
    var x := Crossing(g, s, e, update);
    var before, after := ChannelOf(s, CellOf(g, s.entities[d])), ChannelOf(s, CellAfter(g, s, e, update, d));
    if x.Some? && d in Party(s, e) then
      if s.entities[d].data.Some? then after == {x.value.1} && before <= {x.value.0, x.value.1}
      else after == before - {x.value.0}
    else after == before
  }

  lemma MergedEntities(g: Grid, s: State, e: EntityId, update: EntityData)
    requires e in s.entities
    ensures var s' := Merged(g, s, e, update);
            && s'.entities.Keys == s.entities.Keys && s'.cells.Keys == s.cells.Keys
            && s'.groups == s.groups && s'.interests == s.interests && s'.closing == s.closing
            && forall d <- s.entities.Keys :: s'.entities[d].data ==
                 if d == e then Some(UpdatedData(s.entities[e], update)) else s.entities[d].data
  {
    MergedIs(g, s, e, update);
    hide Merged, Crossing, Subscribed, Posted, WithData, UpdatedData;
  }

  lemma MergedHomes(g: Grid, s: State, e: EntityId, update: EntityData, d: EntityId)
    requires e in s.entities && d in s.entities
    ensures var x := Crossing(g, s, e, update);
            Homes(Merged(g, s, e, update), d) ==
              if x.None? || d !in Party(s, e) then Homes(s, d)
              else if d == e || s.entities[d].data.Some? then Homes(s, d) - {x.value.0} + {x.value.1}
              else Homes(s, d) - {x.value.0}
  {
    MergedIs(g, s, e, update);
    var s1, x := WithUpdate(s, e, update), Crossing(g, s, e, update);
    assert Homes(s1, d) == Homes(s, d);
    if x.Some? {
      MovedHomes(s1, x.value.0, x.value.1, Party(s, e), d);
    }
    hide Homes, Merged, Crossing, Moved;
  }

  /**
   For every entity, companion or not, and whatever locations it has: an update of `e` leaves it in its
   cell iff the update takes it along to where it will belong.
   */
  lemma UpdateKeepsCellIff(g: Grid, s: State, e: EntityId, update: EntityData, d: EntityId)
    requires e in s.entities && d in s.entities && InItsCell(g, s, d)
    ensures d in Merged(g, s, e, update).entities
    ensures InItsCell(g, Merged(g, s, e, update), d) <==> Follows(g, s, e, update, d)
  {
    MergedEntities(g, s, e, update);
    MergedHomes(g, s, e, update, d);
    hide Homes, Merged, Crossing, Party, UpdatedData, GetChannelId, Place, ToSpatialInfo;
  }

  /**
   For an entity with one location that moves alone: it can be followed iff it stays in its cell, as far as
   channels go, or both cells have channels and it is not locked.
   */
  lemma LoneMoveFollowsIff(g: Grid, s: State, e: EntityId, update: EntityData)
    requires e in s.entities && s.entities[e].data.Some? && Party(s, e) <= {e}
    requires var data := s.entities[e].data.value; data.named && OnePlace(data) && OnePlace(MergeData(data, update))
    ensures var (src, dst) := (CellOf(g, s.entities[e]), CellAfter(g, s, e, update, e));
            Follows(g, s, e, update, e) <==>
              ChannelOf(s, src) == ChannelOf(s, dst) || (HasChannel(s, src) && HasChannel(s, dst) && Party(s, e) != {})
  {
    OnePlaceChains(s.entities[e].data.value, update);
    hide CheckData, MergeData, OnePlace, Place, ToSpatialInfo, GetChannelId;
  }

  // ---- authority ----

  /** Open connections with write access are the owner. */
  ghost predicate OnlyOwnerWrites(e: EntityChannel, closing: set<Conn>) {
    forall c <- e.subs.Keys :: e.subs[c] == Write && c !in closing ==> e.owner == Some(c)
  }

  /**
   The source's open owner may write, is not the destination's, claims an interest in it, but is not
   subscribed to it.
   */
  predicate Lingers(s: State, src: ChannelId, dst: ChannelId, e: EntityChannel)
    requires src in s.cells && dst in s.cells
  {
    var owner := OpenOwner(s.cells[src].owner, s.closing);
    && owner.Some? && owner != s.cells[dst].owner
    && owner.value in e.subs && e.subs[owner.value] == Write
    && HasInterestIn(s, owner.value, dst) && owner.value !in s.cells[dst].subs
  }

  /** The entity's open owner is the channel's. */
  predicate OwnedAs(s: State, e: EntityChannel, id: ChannelId)
    requires id in s.cells
  {
    OpenOwner(e.owner, s.closing) == OpenOwner(s.cells[id].owner, s.closing)
  }

  /**
   An entity that the source's owner owns, and nobody else open may write, is handed to the
   destination's owner; the open connections that may write are then that owner and nobody
   else, iff the old owner does not linger.
   */
  lemma AuthorityIsHandedOffIff(s: State, src: ChannelId, dst: ChannelId, e: EntityChannel)
    requires src in s.cells && dst in s.cells && e.data.Some?
    requires OwnedAs(s, e, src) && OnlyOwnerWrites(e, s.closing)
    ensures var after := HandedOver(s, src, dst, e);
            && OwnedAs(s, after, dst)
            && (e.owner == s.cells[src].owner ==> after.owner == s.cells[dst].owner)
            && (forall c <- s.cells[dst].subs - s.closing ::
                  c in after.subs && (after.subs[c] == Write <==> after.owner == Some(c)))
            && (OnlyOwnerWrites(after, s.closing) <==> !Lingers(s, src, dst, e))
  {
    var after := HandedOver(s, src, dst, e);
    if Lingers(s, src, dst, e) {
      var owner := s.cells[src].owner.value;
      assert owner in after.subs && after.subs[owner] == Write;
    }
  }

  /** An entity that the destination's owner owns already stays its own. */
  lemma AuthorityStays(s: State, src: ChannelId, dst: ChannelId, e: EntityChannel)
    requires src in s.cells && dst in s.cells && e.data.Some?
    requires OwnedAs(s, e, dst) && OnlyOwnerWrites(e, s.closing)
    ensures var after := HandedOver(s, src, dst, e); OwnedAs(s, after, dst) && OnlyOwnerWrites(after, s.closing)
  {
  }

  /** The spatialSubscriptions of open connections are the cells that have them as subscribers. */
  ghost predicate InterestsAgree(s: State) {
    forall id <- s.cells.Keys, c: Conn :: c !in s.closing ==> (HasInterestIn(s, c, id) <==> c in s.cells[id].subs)
  }

  /** With agreeing subscription tables nobody lingers. */
  lemma AgreementHandsOff(s: State, src: ChannelId, dst: ChannelId, e: EntityChannel)
    requires src in s.cells && dst in s.cells && e.data.Some? && InterestsAgree(s)
    requires OwnedAs(s, e, src) && OnlyOwnerWrites(e, s.closing)
    ensures var after := HandedOver(s, src, dst, e); OwnedAs(s, after, dst) && OnlyOwnerWrites(after, s.closing)
  {
    AuthorityIsHandedOffIff(s, src, dst, e);
    hide HandedOver, OnlyOwnerWrites;
  }

  /** The entity's owner is its cell's, and is the only open connection that may write it. */
  ghost predicate Governed(g: Grid, s: State, e: EntityId)
    requires e in s.entities
  {
    && OnlyOwnerWrites(s.entities[e], s.closing)
    && (HasChannel(s, CellOf(g, s.entities[e])) ==> OwnedAs(s, s.entities[e], CellOf(g, s.entities[e]).value))
  }

  // ---- runs ----

  datatype Event =
    | Spawns(e: EntityId, data: EntityData, home: ChannelId, access: Access)
    | Moves(e: EntityId, update: EntityData)         // the entity's channel merges an update
    | Runs(cell: ChannelId, budget: nat)             // a cell's channel ticks, and runs queued callbacks
    | Joins(conn: Conn, cell: ChannelId)             // subscribing to, or leaving, a cell's channel
    | Leaves(conn: Conn, cell: ChannelId)
    | Watches(conn: Conn, e: EntityId, access: Access)  // subscribing to an entity's channel
    | Closes(conn: Conn)
    | ForgetsInCell(cell: ChannelId)                 // a tick drops closing connections
    | ForgetsInEntity(e: EntityId)
    | Regroups(e: EntityId, party: set<EntityId>)    // grouping, locking and unlocking
    | Owns(cell: ChannelId, owner: Option<Conn>)     // a cell's channel changes hands

  function Interests(s: State, c: Conn): set<ChannelId> {
    if c in s.interests then s.interests[c] else {}
  }

  function WithoutClosing(owner: Option<Conn>, subs: set<Conn>, closing: set<Conn>): Option<Conn> {
    if owner.Some? && owner.value in subs then OpenOwner(owner, closing) else owner
  }

  /** What `World.TickMessages` does. */
  function Ticked(c: Cell, budget: nat): Cell {
    Ran(c, if budget < |c.queue| then budget else |c.queue|)
  }

  lemma EnoughBudgetDrains(c: Cell, budget: nat)
    ensures Settled(Ticked(c, budget)) == Settled(c)
    ensures |c.queue| <= budget ==> Ticked(c, budget).queue == [] && Ticked(c, budget).present == Settled(c)
  {
    RunningSettles(c, if budget < |c.queue| then budget else |c.queue|);
  }

  /** A new entity channel belongs to the owner of its cell, and the owner adds the entity to the cell's data. */
  function Spawned(s: State, e: EntityId, data: EntityData, home: ChannelId, access: Access): State
    requires home in s.cells
  {
    var owner := OpenOwner(s.cells[home].owner, s.closing);
    var subs := if owner.Some? then map[owner.value := access] else map[];
    s.(entities := s.entities[e := EntityChannel(owner, subs, Some(data))],
       groups := s.groups[e := {e}],
       cells := s.cells[home := s.cells[home].(present := s.cells[home].present + {e})])
  }

  function Step(g: Grid, s: State, ev: Event): State {
    match ev
    case Spawns(e, data, home, access) => if home in s.cells then Spawned(s, e, data, home, access) else s
    case Moves(e, update) => Merged(g, s, e, update)
    case Runs(id, budget) => if id in s.cells then s.(cells := s.cells[id := Ticked(s.cells[id], budget)]) else s
    case Joins(c, id) =>
      if id in s.cells && c !in s.closing then
        s.(cells := s.cells[id := s.cells[id].(subs := s.cells[id].subs + {c})],
           interests := s.interests[c := Interests(s, c) + {id}])
      else s
    case Leaves(c, id) =>
      if id in s.cells && c in s.cells[id].subs then
        s.(cells := s.cells[id := s.cells[id].(subs := s.cells[id].subs - {c})],
           interests := s.interests[c := Interests(s, c) - {id}])
      else s
    case Watches(c, e, access) =>
      if e in s.entities && c !in s.closing then
        s.(entities := s.entities[e := s.entities[e].(subs := s.entities[e].subs[c := access])])
      else s
    case Closes(c) => s.(closing := s.closing + {c})
    case ForgetsInCell(id) =>
      if id in s.cells then
        var cell := s.cells[id];
        s.(cells := s.cells[id := cell.(owner := WithoutClosing(cell.owner, cell.subs, s.closing),
                                                subs := cell.subs - s.closing)])
      else s
    case ForgetsInEntity(e) =>
      if e in s.entities then
        var ch := s.entities[e];
        s.(entities := s.entities[e := ch.(owner := WithoutClosing(ch.owner, ch.subs.Keys, s.closing),
                                                   subs := ch.subs - s.closing)])
      else s
    case Regroups(e, party) => s.(groups := s.groups[e := party])
    case Owns(id, owner) => if id in s.cells then s.(cells := s.cells[id := s.cells[id].(owner := owner)]) else s
  }

  /** No channel has, or is about to get or to lose, the entity. */
  ghost predicate Unheard(s: State, e: EntityId) {
    forall c <- s.cells.Keys :: e !in s.cells[c].present && forall t <- s.cells[c].queue :: e !in t.ids
  }

  /**
   Entities appear in their cells, with their locations; moves can be followed by everybody; write
   access goes to owners only, and channels to the owners of what is in them.
   */
  ghost predicate Allowed(g: Grid, s: State, ev: Event) {
    match ev
    case Spawns(e, data, home, access) =>
      && e !in s.entities && Unheard(s, e)
      && home in s.cells && CellOf(g, EntityChannel(None, map[], Some(data))) == Ok(home)
    case Moves(e, update) =>
      e in s.entities ==>
        && (forall d <- s.entities.Keys :: Tracked(s, d) ==>
             Follows(g, s, e, update, d) && WasSomewhere(g, s, e, update, d))
        && (!Tracked(s, e) ==> Place(UpdatedData(s.entities[e], update)).None?)
    case Watches(c, e, access) => e in s.entities && access == Write ==> s.entities[e].owner == Some(c)
    case Owns(id, owner) =>
      id in s.cells ==> forall e <- s.entities.Keys :: Tracked(s, e) && CellOf(g, s.entities[e]) == Ok(id) ==>
        OpenOwner(s.entities[e].owner, s.closing) == OpenOwner(owner, s.closing)
    case _ => true
  }

  /** An entity that is handed over was in a channel before. */
  predicate WasSomewhere(g: Grid, s: State, e: EntityId, update: EntityData, d: EntityId)
    requires e in s.entities && d in s.entities
  {
    Crossing(g, s, e, update).Some? && d in Party(s, e) ==> HasChannel(s, CellOf(g, s.entities[d]))
  }

  ghost predicate Run(g: Grid, s: State, events: seq<Event>, end: State)
    decreases |events|
  {
    if events == [] then end == s
    else Allowed(g, s, events[0]) && Run(g, Step(g, s, events[0]), events[1..], end)
  }

  ghost predicate AtHome(g: Grid, s: State, e: EntityId)
    requires e in s.entities
  {
    InItsCell(g, s, e) && Governed(g, s, e)
  }

  ghost predicate Sound(g: Grid, s: State) {
    InterestsAgree(s) && forall e <- s.entities.Keys :: Tracked(s, e) ==> AtHome(g, s, e)
  }

  /** Before there are any entities. */
  ghost predicate Empty(s: State) {
    && s.entities == map[] && (forall c <- s.cells.Keys :: s.cells[c].present == {} && s.cells[c].queue == [])
    && InterestsAgree(s)
  }

  lemma MergedKeepsCells(g: Grid, s: State, e: EntityId, update: EntityData)
    ensures var s' := Merged(g, s, e, update);
            && s'.cells.Keys == s.cells.Keys
            && forall c <- s.cells.Keys :: s'.cells[c].owner == s.cells[c].owner && s'.cells[c].subs == s.cells[c].subs
  {
    hide CheckData, MergeData, GetChannelId;
  }

  lemma MergedChannel(g: Grid, s: State, e: EntityId, update: EntityData, d: EntityId)
    requires e in s.entities && d in s.entities
    ensures var (s1, x) := (WithUpdate(s, e, update), Crossing(g, s, e, update));
            && (x.Some? ==> x.value.0 in s1.cells && x.value.1 in s1.cells)
            && d in Merged(g, s, e, update).entities
            && Merged(g, s, e, update).entities[d] ==
                 if x.Some? && d in Party(s, e) then HandedOver(s1, x.value.0, x.value.1, s1.entities[d])
                 else s1.entities[d]
  {
    MergedIs(g, s, e, update);
    hide Merged, Crossing, HandedOver, Posted, WithData, UpdatedChannel;
  }

  lemma MoveKeepsGoverned(g: Grid, s: State, e: EntityId, update: EntityData, d: EntityId)
    requires e in s.entities && Tracked(s, d) && InterestsAgree(s) && Governed(g, s, d)
    requires Follows(g, s, e, update, d) && WasSomewhere(g, s, e, update, d)
    ensures d in Merged(g, s, e, update).entities && Governed(g, Merged(g, s, e, update), d)
  {
    MergedKeepsCells(g, s, e, update);
    MergedEntities(g, s, e, update);
    MergedChannel(g, s, e, update, d);
    var s1, x := WithUpdate(s, e, update), Crossing(g, s, e, update);
    assert s1.entities[d].data.Some? && OnlyOwnerWrites(s1.entities[d], s1.closing) && InterestsAgree(s1);
    hide Merged, Crossing, HandedOver, GetChannelId, Party, OnlyOwnerWrites, InterestsAgree, UpdatedData, Place,
         ToSpatialInfo;
    if x.Some? && d in Party(s, e) {
      if CellOf(g, s.entities[d]) == Ok(x.value.0) {
        AgreementHandsOff(s1, x.value.0, x.value.1, s1.entities[d]);
      } else {
        AuthorityStays(s1, x.value.0, x.value.1, s1.entities[d]);
      }
    }
  }

  lemma MoveKeepsSound(g: Grid, s: State, e: EntityId, update: EntityData)
    requires Sound(g, s) && e in s.entities && Allowed(g, s, Moves(e, update))
    ensures Sound(g, Merged(g, s, e, update))
  {
    var s' := Merged(g, s, e, update);
    MergedKeepsCells(g, s, e, update);
    MergedEntities(g, s, e, update);
    assert Tracked(s, e) <==> Tracked(s', e) by { MergeKeepsPlace(s.entities[e], update); }
    hide Merged, UpdatedData, CellOf, InItsCell, Follows, WasSomewhere, Governed;
    forall d | d in s'.entities && Tracked(s', d) ensures AtHome(g, s', d) {
      assert Tracked(s, d) && AtHome(g, s, d);
      UpdateKeepsCellIff(g, s, e, update, d);
      MoveKeepsGoverned(g, s, e, update, d);
    }
  }

  lemma MergeKeepsPlace(e: EntityChannel, update: EntityData)
    ensures e.data.Some? && Place(e.data.value).Some? ==> Place(UpdatedData(e, update)).Some?
  {
  }

  lemma {:induction false} PerformWithout(queue: seq<Task>, present: set<EntityId>, e: EntityId)
    requires forall t <- queue :: e !in t.ids
    ensures PerformAll(queue, present + {e}) == PerformAll(queue, present) + {e}
    ensures e in PerformAll(queue, present) <==> e in present
  {
    if queue != [] {
      assert Perform(queue[0], present + {e}) == Perform(queue[0], present) + {e};
      PerformWithout(queue[1..], Perform(queue[0], present), e);
    }
  }

  lemma SpawnedHomes(s: State, e: EntityId, data: EntityData, home: ChannelId, access: Access, d: EntityId)
    requires home in s.cells && Unheard(s, e)
    ensures Homes(Spawned(s, e, data, home, access), d) == if d == e then {home} else Homes(s, d)
  {
    forall c | c in s.cells
      ensures Settled(s.cells[c].(present := s.cells[c].present + {e})) == Settled(s.cells[c]) + {e}
      ensures e !in Settled(s.cells[c])
    {
      PerformWithout(s.cells[c].queue, s.cells[c].present, e);
    }
    hide Settled;
  }

  lemma OtherStepsKeepHomes(g: Grid, s: State, ev: Event, d: EntityId)
    requires !ev.Moves? && Allowed(g, s, ev) && d in s.entities
    ensures var t := Step(g, s, ev);
            && t.cells.Keys == s.cells.Keys && d in t.entities && t.entities[d].data == s.entities[d].data
            && Homes(t, d) == Homes(s, d)
  {
    if ev.Spawns? {
      SpawnedHomes(s, ev.e, ev.data, ev.home, ev.access, d);
    }
    if ev.Runs? && ev.cell in s.cells {
      EnoughBudgetDrains(s.cells[ev.cell], ev.budget);
      hide Ticked, Settled;
    }
    hide Merged, CellOf, WithoutClosing, Unheard;
  }

  /** Owners that change become closing connections' none, or the same; only owners gain write access. */
  lemma OtherStepsKeepOwners(g: Grid, s: State, ev: Event, d: EntityId)
    requires !ev.Moves? && Allowed(g, s, ev) && Tracked(s, d) && Governed(g, s, d)
    ensures d in Step(g, s, ev).entities && Governed(g, Step(g, s, ev), d)
  {
    hide Merged, GetChannelId, Place, ToSpatialInfo, Unheard, PerformAll;
  }

  lemma OtherStepsKeepTables(g: Grid, s: State, ev: Event)
    requires !ev.Moves? && InterestsAgree(s)
    ensures InterestsAgree(Step(g, s, ev))
  {
    hide PerformAll, WithoutClosing, Merged;
  }

  lemma SpawnedIsAtHome(g: Grid, s: State, ev: Event)
    requires ev.Spawns? && Allowed(g, s, ev)
    ensures var t := Step(g, s, ev); t.entities.Keys == s.entities.Keys + {ev.e} && AtHome(g, t, ev.e)
  {
    SpawnedHomes(s, ev.e, ev.data, ev.home, ev.access, ev.e);
    hide Homes, GetChannelId, Place, ToSpatialInfo, Unheard;
  }

  lemma EntitiesOfStep(g: Grid, s: State, ev: Event)
    requires !ev.Moves? && !ev.Spawns?
    ensures Step(g, s, ev).entities.Keys == s.entities.Keys
  {
    hide Ticked, WithoutClosing;
  }

  lemma StepKeepsSound(g: Grid, s: State, ev: Event)
    requires Sound(g, s) && Allowed(g, s, ev)
    ensures Sound(g, Step(g, s, ev))
  {
    if ev.Moves? && ev.e in s.entities {
      MoveKeepsSound(g, s, ev.e, ev.update);
    } else if !ev.Moves? {
      OtherStepsKeepTables(g, s, ev);
      if ev.Spawns? {
        SpawnedIsAtHome(g, s, ev);
      } else {
        EntitiesOfStep(g, s, ev);
      }
      hide Step, Governed, CellOf, Homes, InterestsAgree;
      var t := Step(g, s, ev);
      forall d | d in t.entities && Tracked(t, d) ensures AtHome(g, t, d) {
        if d in s.entities {
          OtherStepsKeepHomes(g, s, ev, d);
          assert Tracked(s, d) && AtHome(g, s, d);
          OtherStepsKeepOwners(g, s, ev, d);
          SameDataSameCell(g, s, t, d);
        }
      }
    }
  }

  lemma SameDataSameCell(g: Grid, s: State, t: State, d: EntityId)
    requires d in s.entities && d in t.entities && t.entities[d].data == s.entities[d].data
    requires t.cells.Keys == s.cells.Keys
    ensures ChannelOf(t, CellOf(g, t.entities[d])) == ChannelOf(s, CellOf(g, s.entities[d]))
  {
  }

  lemma {:induction false} EveryRunIsSound(g: Grid, s: State, events: seq<Event>, end: State)
    requires Sound(g, s) && Run(g, s, events, end)
    ensures Sound(g, end)
    decreases |events|
  {
    hide Sound, Step, Allowed;
    if events != [] {
      StepKeepsSound(g, s, events[0]);
      EveryRunIsSound(g, Step(g, s, events[0]), events[1..], end);
    }
  }

  /**
   In every interleaving of moves and queued callbacks, from a start without entities, whenever the
   queues are empty, an entity is in the data of exactly the channel that is the cell of its
   place, its open owner is that channel's, and no other open connection may write it.
   */
  lemma QuietEntitiesAreAtHome(g: Grid, s: State, events: seq<Event>, end: State, e: EntityId, home: ChannelId)
    requires Empty(s) && Run(g, s, events, end)
    requires forall c <- end.cells.Keys :: end.cells[c].queue == []
    requires Tracked(end, e) && CellOf(g, end.entities[e]) == Ok(home) && home in end.cells
    ensures forall c <- end.cells.Keys :: e in end.cells[c].present <==> c == home
    ensures OwnedAs(end, end.entities[e], home) && OnlyOwnerWrites(end.entities[e], end.closing)
  {
    EveryRunIsSound(g, s, events, end);
    assert AtHome(g, end, e);
    assert forall c <- end.cells.Keys :: e in end.cells[c].present <==> c in Homes(end, e);
    hide CellOf, Tracked, Homes, OnlyOwnerWrites;
  }

  // ---- examples ----

  ghost const TWO_BY_ONE: Grid := Config(1.0, 1.0, 2, 1, Point(0.0, 0.0), 1, 1, 1, 0x1_0000)

  /** The second coordinate is the one that counts besides the first; the third is the height. */
  function At(x: real): EntityData {
    EntityData(true, Some(Vector(Some(x), Some(0.5), Some(7.0))), None)
  }

  /** One entity, with the given party, in the left one of two cells. */
  function Standing(party: set<EntityId>): State {
    State(map[0x1_0000 := Cell(None, {}, {7}, []), 0x1_0001 := Cell(None, {}, {}, [])],
          map[7 := EntityChannel(None, map[], Some(At(0.5)))], map[7 := party], map[], {})
  }

  lemma ColumnsOfExample(x: real)
    ensures Interval(0.5, 0.0, 1.0) == 0
    ensures 0.0 <= x < 1.0 ==> Interval(x, 0.0, 1.0) == 0
    ensures 1.0 <= x < 2.0 ==> Interval(x, 0.0, 1.0) == 1
    ensures 2.0 <= x ==> Interval(x, 0.0, 1.0) >= 2
  {
    assert (0.5 - 0.0) / 1.0 == 0.5 && (x - 0.0) / 1.0 == x;
  }

  lemma CellsOfExample(x: real)
    ensures var cell := GetChannelId(TWO_BY_ONE, Point(x, 0.5));
            && (0.0 <= x < 1.0 ==> cell == Ok(0x1_0000))
            && (1.0 <= x < 2.0 ==> cell == Ok(0x1_0001))
            && (2.0 <= x ==> cell.Err?)
  {
    hide Interval;
    ColumnsOfExample(x);
  }

  lemma StandsInItsCell(party: set<EntityId>)
    ensures InItsCell(TWO_BY_ONE, Standing(party), 7)
  {
    hide GetChannelId;
    var s := Standing(party);
    CellsOfExample(0.5);
    assert Settled(s.cells[0x1_0000]) == {7} && Settled(s.cells[0x1_0001]) == {};
    hide Settled;
    assert Homes(s, 7) == {0x1_0000};
  }

  /** Moved off the world, the entity stays in the data of the cell that it has left. */
  lemma LeavingTheWorldLeavesItBehind()
    ensures InItsCell(TWO_BY_ONE, Standing({7}), 7)
    ensures !InItsCell(TWO_BY_ONE, Merged(TWO_BY_ONE, Standing({7}), 7, At(2.5)), 7)
  {
    hide GetChannelId, InItsCell, Merged;
    var s := Standing({7});
    StandsInItsCell({7});
    CellsOfExample(0.5);
    CellsOfExample(2.5);
    UpdateKeepsCellIff(TWO_BY_ONE, s, 7, At(2.5), 7);
  }

  /** So does one that moves while it is locked, which has an empty party. */
  lemma MovingWhileLockedLeavesItBehind()
    ensures InItsCell(TWO_BY_ONE, Standing({}), 7)
    ensures !InItsCell(TWO_BY_ONE, Merged(TWO_BY_ONE, Standing({}), 7, At(1.5)), 7)
  {
    hide GetChannelId, InItsCell, Merged;
    var s := Standing({});
    StandsInItsCell({});
    CellsOfExample(0.5);
    CellsOfExample(1.5);
    UpdateKeepsCellIff(TWO_BY_ONE, s, 7, At(1.5), 7);
  }
}

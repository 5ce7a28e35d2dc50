/** Moving entities between cells: the notification of a move, and the callbacks it queues. */
module Handover {
  import opened Prelude
  import opened SpatialGrid
  import opened Location

  type Conn = nat       // a connection, by identity
  type EntityId = nat   // also the id of the entity's channel

  datatype Access = Read | Write

  datatype EntityChannel = EntityChannel(owner: Option<Conn>, subs: map<Conn, Access>, data: Option<EntityData>)

  /** A callback in a cell channel's queue. */
  datatype Task = Remove(ids: set<EntityId>) | Add(ids: set<EntityId>)

  datatype Cell = Cell(owner: Option<Conn>, subs: set<Conn>, present: set<EntityId>, queue: seq<Task>)

  /**
   All spatial and entity channels. `groups` has what GetHandoverEntities returns for each entity
   that has a controller; `interests` has each connection's spatialSubscriptions.
   */
  datatype State = State(
    cells: map<ChannelId, Cell>,
    entities: map<EntityId, EntityChannel>,
    groups: map<EntityId, set<EntityId>>,
    interests: map<Conn, set<ChannelId>>,
    closing: set<Conn>)

  // ---- queued callbacks ----

  function Perform(t: Task, present: set<EntityId>): set<EntityId> {
    match t
    case Remove(ids) => present - ids
    case Add(ids) => present + ids
  }

  /** The data after all callbacks still in the queue. */
  function PerformAll(queue: seq<Task>, present: set<EntityId>): set<EntityId> {
    if queue == [] then present else PerformAll(queue[1..], Perform(queue[0], present))
  }

  lemma {:induction false} PerformSnoc(queue: seq<Task>, t: Task, present: set<EntityId>)
    ensures PerformAll(queue + [t], present) == Perform(t, PerformAll(queue, present))
  {
    if queue == [] {
      assert queue + [t] == [t];
      assert PerformAll([t], present) == PerformAll([], Perform(t, present));
    } else {
      PerformSnoc(queue[1..], t, Perform(queue[0], present));
      assert (queue + [t])[1..] == queue[1..] + [t];
    }
  }

  function Settled(c: Cell): set<EntityId> {
    PerformAll(c.queue, c.present)
  }

  function Posted(c: Cell, t: Task): Cell {
    c.(queue := c.queue + [t])
  }

  /** The first `n` callbacks in the queue run. */
  function Ran(c: Cell, n: nat): Cell
    requires n <= |c.queue|
  {
    c.(present := PerformAll(c.queue[..n], c.present), queue := c.queue[n..])
  }

  lemma {:induction false} PerformConcat(a: seq<Task>, b: seq<Task>, present: set<EntityId>)
    ensures PerformAll(a + b, present) == PerformAll(b, PerformAll(a, present))
  {
    if a == [] {
      assert a + b == b;
    } else {
      assert (a + b)[1..] == a[1..] + b;
      PerformConcat(a[1..], b, Perform(a[0], present));
    }
  }

  /** Running callbacks brings the data nearer to what it will be: with all of them run, it is that. */
  lemma RunningSettles(c: Cell, n: nat)
    requires n <= |c.queue|
    ensures Settled(Ran(c, n)) == Settled(c)
    ensures n == |c.queue| ==> Ran(c, n).queue == [] && Ran(c, n).present == Settled(c)
  {
    PerformConcat(c.queue[..n], c.queue[n..], c.present);
    assert c.queue[..n] + c.queue[n..] == c.queue;
  }

  // ---- the notification ----

  function OpenOwner(owner: Option<Conn>, closing: set<Conn>): Option<Conn> {
    if owner.Some? && owner.value in closing then None else owner
  }

  /** An open owner, and the same for both. */
  predicate IsSameOwner(a: Cell, b: Cell, closing: set<Conn>) {
    a.owner.Some? && a.owner.value !in closing && a.owner == b.owner
  }

  predicate HasInterestIn(s: State, c: Conn, id: ChannelId) {
    c in s.interests && id in s.interests[c]
  }

  function Party(s: State, e: EntityId): set<EntityId> {
    if e in s.groups then s.groups[e] else {}
  }

  /** The source's owner leaves the entity channel? */
  predicate OwnerLeaves(s: State, src: ChannelId, dst: ChannelId)
    requires src in s.cells
  {
    var owner := OpenOwner(s.cells[src].owner, s.closing);
    owner.Some? && !HasInterestIn(s, owner.value, dst)
  }

  /** Authority goes to the destination's owner. */
  function Reowned(s: State, src: ChannelId, dst: ChannelId, e: EntityChannel): EntityChannel
    requires src in s.cells && dst in s.cells
  {
    e.(owner := s.cells[dst].owner,
       subs := if OwnerLeaves(s, src, dst) then e.subs - {s.cells[src].owner.value} else e.subs)
  }

  /** These connections are subscribed, or their data access is reset; only the owner may write. */
  function Subscribed(e: EntityChannel, conns: set<Conn>): EntityChannel {
    e.(subs := map c | c in e.subs.Keys + conns ::
         if c in conns then (if e.owner == Some(c) then Write else Read) else e.subs[c])
  }

  function HandedOver(s: State, src: ChannelId, dst: ChannelId, e: EntityChannel): EntityChannel
    requires src in s.cells && dst in s.cells
  {
    var moved := if IsSameOwner(s.cells[src], s.cells[dst], s.closing) then e else Reowned(s, src, dst, e);
    if moved.data.Some? then Subscribed(moved, s.cells[dst].subs - s.closing) else moved
  }

  function WithData(s: State, ids: set<EntityId>): set<EntityId> {
    set id | id in ids && id in s.entities && s.entities[id].data.Some?
  }

  /** A move between two cells that have channels takes the entity's whole party along, unless that is empty. */
  predicate Crosses(g: Grid, s: State, before: SpatialInfo, after: SpatialInfo, e: EntityId) {
    var src, dst := GetChannelId(g, Point(before.x, before.z)), GetChannelId(g, Point(after.x, after.z));
    && src.Ok? && dst.Ok? && src != dst
    && src.value in s.cells && dst.value in s.cells
    && e in s.entities && Party(s, e) != {}
  }

  function Moved(s: State, src: ChannelId, dst: ChannelId, party: set<EntityId>): State
    requires src in s.cells && dst in s.cells && src != dst
  {
    s.(entities := map id | id in s.entities ::
         if id in party then HandedOver(s, src, dst, s.entities[id]) else s.entities[id],
       cells := s.cells[src := Posted(s.cells[src], Remove(party))]
                       [dst := Posted(s.cells[dst], Add(WithData(s, party)))])
  }

  function Notified(g: Grid, s: State, before: SpatialInfo, after: SpatialInfo, e: EntityId): State {
    if Crosses(g, s, before, after, e) then
      var src, dst := GetChannelId(g, Point(before.x, before.z)).value, GetChannelId(g, Point(after.x, after.z)).value;
      Moved(s, src, dst, Party(s, e))
    else s
  }

  /**
   An update is merged into an entity channel's data, and a change of position is notified. The
   first update of a channel without data becomes its data.
   */
  function Merged(g: Grid, s: State, e: EntityId, update: EntityData): State {
    if e !in s.entities then s
    else
      var ch := s.entities[e];
      var data := if ch.data.Some? then MergeData(ch.data.value, update) else update;
      var s' := s.(entities := s.entities[e := ch.(data := Some(data))]);
      var move := if ch.data.Some? then CheckData(ch.data.value, update) else None;
      if move.Some? then Notified(g, s', move.value.0, move.value.1, e) else s'
  }

  // ---- the loops of the notification ----

  function ReownedAll(s: State, src: ChannelId, dst: ChannelId, entities: map<EntityId, EntityChannel>,
                      ids: set<EntityId>)
    : map<EntityId, EntityChannel>
    requires src in s.cells && dst in s.cells
  {
    map id | id in entities :: if id in ids then Reowned(s, src, dst, entities[id]) else entities[id]
  }

  function SubscribedIfData(e: EntityChannel, conns: set<Conn>): EntityChannel {
    if e.data.Some? then Subscribed(e, conns) else e
  }

  function SubscribedAll(entities: map<EntityId, EntityChannel>, ids: set<EntityId>,
                         conns: set<Conn>): map<EntityId, EntityChannel> {
    map id | id in entities :: if id in ids then SubscribedIfData(entities[id], conns) else entities[id]
  }

  lemma SubscribedInTurn(e: EntityChannel, conns: set<Conn>, c: Conn)
    ensures SubscribedIfData(SubscribedIfData(e, conns), {c}) == SubscribedIfData(e, conns + {c})
  {
    if e.data.Some? {
      var once, twice := Subscribed(e, conns + {c}), Subscribed(Subscribed(e, conns), {c});
      assert once.subs.Keys == twice.subs.Keys;
      assert once.subs == twice.subs;
    }
  }

  lemma SubscribedAllInTurn(entities: map<EntityId, EntityChannel>, ids: set<EntityId>, conns: set<Conn>, c: Conn)
    ensures SubscribedAll(SubscribedAll(entities, ids, conns), ids, {c}) == SubscribedAll(entities, ids, conns + {c})
  {
    hide SubscribedIfData;
    forall id | id in entities && id in ids
      ensures SubscribedIfData(SubscribedIfData(entities[id], conns), {c}) ==
                SubscribedIfData(entities[id], conns + {c})
    {
      SubscribedInTurn(entities[id], conns, c);
    }
  }

  lemma NoOneSubscribed(entities: map<EntityId, EntityChannel>, ids: set<EntityId>)
    ensures SubscribedAll(entities, ids, {}) == entities
  {
    forall id | id in entities ensures SubscribedIfData(entities[id], {}) == entities[id] {
      assert Subscribed(entities[id], {}).subs == entities[id].subs;
    }
  }

  class World {
    const grid: Grid
    var cells: map<ChannelId, Cell>
    var entities: map<EntityId, EntityChannel>
    var groups: map<EntityId, set<EntityId>>
    var interests: map<Conn, set<ChannelId>>
    var closing: set<Conn>

    ghost function Now(): State
      reads this
    {
      State(cells, entities, groups, interests, closing)
    }

    constructor (g: Grid, s: State)
      ensures grid == g && Now() == s
    {
      grid, cells, entities, groups, interests, closing := g, s.cells, s.entities, s.groups, s.interests, s.closing;
    }

    /** The source's owner leaves each entity channel if it has no interest in the destination; the owner changes. */
    method Reown(party: set<EntityId>, src: ChannelId, dst: ChannelId)
      requires src in cells && dst in cells
      modifies this`entities
      ensures entities == ReownedAll(old(Now()), src, dst, old(entities), party)
    {
      ghost var s := Now();
      var todo := party;
      hide Reowned;
      while todo != {}
        modifies this`entities
        invariant todo <= party
        invariant entities == ReownedAll(s, src, dst, old(entities), party - todo)
        decreases |todo|
      {
        var id :| id in todo;
        if id in entities {
          var ch := entities[id];
          var owner := cells[src].owner;
          if owner.Some? && owner.value !in closing && !(owner.value in interests && dst in interests[owner.value]) {
            ch := ch.(subs := ch.subs - {owner.value});
          }
          ch := ch.(owner := cells[dst].owner);
          ReownedIs(s, src, dst, entities[id], ch);
          entities := entities[id := ch];
        }
        todo := todo - {id};
      }
    }

    lemma ReownedIs(s: State, src: ChannelId, dst: ChannelId, e: EntityChannel, after: EntityChannel)
      requires src in s.cells && dst in s.cells
      requires after.data == e.data && after.owner == s.cells[dst].owner
      requires after.subs == if OwnerLeaves(s, src, dst) then e.subs - {s.cells[src].owner.value} else e.subs
      ensures after == Reowned(s, src, dst, e)
    {
    }

    /** Subscribes one connection to the channels of the party's entities that have data. */
    method SubscribeToParty(conn: Conn, party: set<EntityId>)
      modifies this`entities
      ensures entities == if conn in closing then old(entities) else SubscribedAll(old(entities), party, {conn})
    {
      if conn in closing {
        return;
      }
      var todo := party;
      hide SubscribedIfData;
      while todo != {}
        modifies this`entities
        invariant todo <= party
        invariant entities == SubscribedAll(old(entities), party - todo, {conn})
        decreases |todo|
      {
        var id :| id in todo;
        if id in entities {
          var ch := entities[id];
          if ch.data.Some? {
            var access := if ch.owner == Some(conn) then Write else Read;
            OneSubscribed(ch, conn, access);
            entities := entities[id := ch.(subs := ch.subs[conn := access])];
          } else {
            NoneSubscribed(ch, conn);
          }
        }
        todo := todo - {id};
      }
    }

    lemma OneSubscribed(e: EntityChannel, c: Conn, access: Access)
      requires e.data.Some? && access == if e.owner == Some(c) then Write else Read
      ensures SubscribedIfData(e, {c}) == e.(subs := e.subs[c := access])
    {
      assert Subscribed(e, {c}).subs == e.subs[c := access];
    }

    lemma NoneSubscribed(e: EntityChannel, c: Conn)
      requires e.data.None?
      ensures SubscribedIfData(e, {c}) == e
    {
    }

    /** Every open connection in the destination is subscribed to the party's channels. */
    method SubscribeDestination(dst: ChannelId, party: set<EntityId>)
      requires dst in cells
      modifies this`entities
      ensures entities == SubscribedAll(old(entities), party, cells[dst].subs - closing)
    {
      var todo := cells[dst].subs;
      NoOneSubscribed(entities, party);
      hide SubscribedAll;
      assert cells[dst].subs - todo - closing == {};
      while todo != {}
        modifies this`entities
        invariant todo <= cells[dst].subs
        invariant entities == SubscribedAll(old(entities), party, cells[dst].subs - todo - closing)
        decreases |todo|
      {
        var conn :| conn in todo;
        SubscribeToParty(conn, party);
        SubscribedAllInTurn(old(entities), party, cells[dst].subs - todo - closing, conn);
        OneMoreDone(cells[dst].subs, todo, conn, closing);
        todo := todo - {conn};
      }
      assert cells[dst].subs - {} == cells[dst].subs;
    }

    lemma OneMoreDone(subs: set<Conn>, todo: set<Conn>, conn: Conn, closing: set<Conn>)
      requires conn in todo && todo <= subs
      ensures subs - (todo - {conn}) - closing ==
                if conn in closing then subs - todo - closing else subs - todo - closing + {conn}
    {
    }

    /** Runs in the entity's channel when an update has moved the entity. */
    method Notify(before: SpatialInfo, after: SpatialInfo, e: EntityId)
      modifies this
      ensures Now() == Notified(grid, old(Now()), before, after, e)
    {
      var src, dst := GetChannelId(grid, Point(before.x, before.z)), GetChannelId(grid, Point(after.x, after.z));
      if src.Err? || dst.Err? || src == dst {
        return;
      }
      if src.value !in cells || dst.value !in cells || e !in entities {
        return;
      }
      var party := if e in groups then groups[e] else {};
      if party == {} {
        return;
      }
      HandOver(src.value, dst.value, party);
    }

    method HandOver(src: ChannelId, dst: ChannelId, party: set<EntityId>)
      requires src in cells && dst in cells && src != dst
      modifies this`entities, this`cells
      ensures Now() == Moved(old(Now()), src, dst, party)
    {
      ghost var s := Now();
      var withData := set id | id in party && id in entities && entities[id].data.Some?;
      if !IsSameOwner(cells[src], cells[dst], closing) {
        Reown(party, src, dst);
      }
      cells := cells[src := Posted(cells[src], Remove(party))];
      cells := cells[dst := Posted(cells[dst], Add(withData))];
      ghost var reowned := entities;
      SubscribeDestination(dst, party);
      StepsAreMoved(s, src, dst, party, reowned, Now());
    }

    lemma StepsAreMoved(s: State, src: ChannelId, dst: ChannelId, party: set<EntityId>,
                        reowned: map<EntityId, EntityChannel>, end: State)
      requires src in s.cells && dst in s.cells && src != dst
      requires reowned == if IsSameOwner(s.cells[src], s.cells[dst], s.closing) then s.entities
                          else ReownedAll(s, src, dst, s.entities, party)
      requires end.entities == SubscribedAll(reowned, party, s.cells[dst].subs - s.closing)
      requires end.cells == s.cells[src := Posted(s.cells[src], Remove(party))]
                                   [dst := Posted(s.cells[dst], Add(WithData(s, party)))]
      requires end.groups == s.groups && end.interests == s.interests && end.closing == s.closing
      ensures end == Moved(s, src, dst, party)
    {
      hide Reowned, Subscribed, IsSameOwner;
      var m := Moved(s, src, dst, party);
      assert m.entities.Keys == end.entities.Keys;
      assert m.entities == end.entities;
    }

    /** An update of an entity channel's data. */
    method MergeUpdate(e: EntityId, update: EntityData)
      modifies this
      ensures Now() == Merged(grid, old(Now()), e, update)
    {
      hide Notified, CheckData, MergeData;
      if e !in entities {
        return;
      }
      var ch := entities[e];
      if ch.data.None? {
        entities := entities[e := ch.(data := Some(update))];
      } else {
        var move := CheckData(ch.data.value, update);
        entities := entities[e := ch.(data := Some(MergeData(ch.data.value, update)))];
        if move.Some? {
          Notify(move.value.0, move.value.1, e);
        }
      }
    }

    /**
     Runs queued callbacks in order; some other message may end the tick before the queue is empty. With budget
     enough, the data is then what the queue was to make of it.
     */
    method TickMessages(id: ChannelId, budget: nat)
      requires id in cells
      modifies this`cells
      ensures id in cells && Now() == old(Now()).(cells := old(cells)[id := cells[id]])
      ensures var (was, now) := (old(cells[id]), cells[id]);
              var n := if budget < |was.queue| then budget else |was.queue|;
              && now.owner == was.owner && now.subs == was.subs
              && now.queue == was.queue[n..] && now.present == PerformAll(was.queue[..n], was.present)
              && Settled(now) == Settled(was)
              && (|was.queue| <= budget ==> now.queue == [] && now.present == Settled(was))
    {
      var left := budget;
      ghost var was, n: nat := cells[id], 0;
      assert was.queue[..0] == [] && was.queue[0..] == was.queue;
      while cells[id].queue != [] && left > 0
        modifies this`cells
        invariant id in cells && n <= |was.queue| && left == budget - n
        invariant cells == old(cells)[id := Ran(was, n)]
        decreases left
      {
        var ch := cells[id];
        var present := match ch.queue[0]
          case Remove(ids) => ch.present - ids
          case Add(ids) => ch.present + ids;
        PerformSnoc(was.queue[..n], was.queue[n], was.present);
        assert was.queue[..n + 1] == was.queue[..n] + [was.queue[n]];
        cells := cells[id := ch.(present := present, queue := ch.queue[1..])];
        left := left - 1;
        n := n + 1;
      }
      RunningSettles(was, n);
    }
  }
}

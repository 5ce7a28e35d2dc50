/** Handover and lock groups, whose objects are shared between the controllers of several entities. */
module EntityGroups {

  type EntityId = nat   // also the id of the entity's channel

  class EntityGroup {
    var ids: set<EntityId>

    constructor ()
      ensures ids == {}
    {
      ids := {};
    }

    /** Adds the members of another group, which may be this very group. */
    method Add(other: EntityGroup?)
      modifies this
      ensures ids == old(ids) + if other == null then {} else old(other.ids)
    {
      if other == null {
        return;
      }
      var todo := other.ids;
      ghost var members := other.ids;
      while todo != {}
        modifies this
        invariant todo <= members
        invariant ids == old(ids) + (members - todo)
        decreases |todo|
      {
        var key :| key in todo;
        ids := ids + {key};
        todo := todo - {key};
      }
      assert members - {} == members;
    }
  }

  /** The members of a group that may be missing. */
  ghost function Members(g: EntityGroup?): set<EntityId>
    reads g
  {
    if g == null then {} else g.ids
  }

  class Controller {
    const id: EntityId
    var handover: EntityGroup?
    var lock: EntityGroup?

    constructor (id: EntityId)
      ensures this.id == id && handover == null && lock == null
    {
      this.id := id;
      handover, lock := null, null;
    }

    predicate Locked()
      reads this, lock
    {
      lock != null && lock.ids != {}
    }

    /** Joins the handover group, bringing along the members of the present one, unless locked. */
    method CascadeHandover(group: EntityGroup)
      modifies this`handover, group
      ensures old(Locked()) ==> handover == old(handover) && group.ids == old(group.ids)
      ensures !old(Locked()) ==> handover == group && group.ids == old(group.ids) + old(Members(handover))
    {
      if lock != null && lock.ids != {} {
        return;
      }
      group.Add(handover);
      handover := group;
    }

    /** Joins the lock group, bringing along the handover group as well, unless locked. */
    method CascadeLock(group: EntityGroup)
      modifies this`lock, group
      ensures old(Locked()) ==> lock == old(lock) && group.ids == old(group.ids)
      ensures !old(Locked()) ==>
                lock == group && group.ids == old(group.ids) + old(Members(handover)) + old(Members(lock))
    {
      if lock != null && lock.ids != {} {
        return;
      }
      group.Add(handover);
      group.Add(lock);
      lock := group;
    }
  }

  // ---- adding ----

  /** Each channel's controller is that of its entity, and no group serves both purposes. */
  ghost predicate Registered(channels: map<EntityId, Controller>)
    reads channels.Values
  {
    && (forall id <- channels.Keys :: channels[id].id == id)
    && forall a <- channels.Keys, b <- channels.Keys ::
         channels[a].lock != null ==> channels[a].lock != channels[b].handover
  }

  ghost function Groups(channels: map<EntityId, Controller>): set<object>
    reads channels.Values
  {
    (set id | id in channels && channels[id].handover != null :: channels[id].handover)
    + set id | id in channels && channels[id].lock != null :: channels[id].lock
  }

  /** Which entities would join a handover group, and whom each would bring along. */
  ghost function Brings(channels: map<EntityId, Controller>): map<EntityId, set<EntityId>>
    reads channels.Values, Groups(channels)
  {
    map id | id in channels && !channels[id].Locked() :: Members(channels[id].handover)
  }

  ghost function HandoverOf(channels: map<EntityId, Controller>): map<EntityId, EntityGroup?>
    reads channels.Values
  {
    map id | id in channels :: channels[id].handover
  }

  /** A group after the first `k` entities were added. */
  ghost function Gathered(start: set<EntityId>, entities: seq<EntityId>, k: nat,
                          brings: map<EntityId, set<EntityId>>): set<EntityId>
    requires k <= |entities|
  {
    if k == 0 then start
    else
      var id := entities[k - 1];
      Gathered(start, entities, k - 1, brings) + {id} + if id in brings then brings[id] else {}
  }

  /** The group's old members, the entities added, and whom those bring along; nobody else. */
  lemma {:induction false} GatheredMembers(start: set<EntityId>, entities: seq<EntityId>, k: nat,
                                           brings: map<EntityId, set<EntityId>>, e: EntityId)
    requires k <= |entities|
    ensures e in Gathered(start, entities, k, brings) <==>
            || e in start
            || exists j :: 0 <= j < k && (entities[j] == e || (entities[j] in brings && e in brings[entities[j]]))
  {
    if k > 0 {
      GatheredMembers(start, entities, k - 1, brings, e);
    }
  }

  lemma GatheredGrows(start: set<EntityId>, entities: seq<EntityId>, k: nat, brings: map<EntityId, set<EntityId>>,
                      id: EntityId)
    requires k <= |entities| && id in entities[..k] && id in brings
    ensures brings[id] <= Gathered(start, entities, k, brings)
  {
    var j :| 0 <= j < k && entities[j] == id;
    forall e | e in brings[id] ensures e in Gathered(start, entities, k, brings) {
      GatheredMembers(start, entities, k, brings, e);
    }
  }

  lemma GatheredKeeps(start: set<EntityId>, entities: seq<EntityId>, k: nat, brings: map<EntityId, set<EntityId>>)
    requires k <= |entities|
    ensures start <= Gathered(start, entities, k, brings)
  {
    forall e | e in start ensures e in Gathered(start, entities, k, brings) {
      GatheredMembers(start, entities, k, brings, e);
    }
  }

  /** No lock group is this group, and these are the entities that are not locked. */
  ghost predicate LocksAside(channels: map<EntityId, Controller>, group: EntityGroup, unlocked: set<EntityId>)
    reads channels.Values, Groups(channels)
  {
    forall id <- channels.Keys ::
      channels[id].id == id && channels[id].lock != group && (id in unlocked <==> !channels[id].Locked())
  }

  /** Whom each joining entity would bring along, as long as its group is not the one that grows. */
  ghost predicate BringsAre(was: map<EntityId, EntityGroup?>, brings: map<EntityId, set<EntityId>>, group: EntityGroup,
                            start: set<EntityId>)
    reads set g: EntityGroup | g in was.Values && g != group
  {
    forall id <- brings.Keys ::
      id in was && if was[id] == group then brings[id] <= start else brings[id] == Members(was[id])
  }

  /** The controllers' groups after the first `k` entities were added. */
  ghost function GroupsAfter(was: map<EntityId, EntityGroup?>, self: EntityId, group: EntityGroup,
                             entities: seq<EntityId>, k: nat, unlocked: set<EntityId>): map<EntityId, EntityGroup?>
    requires k <= |entities|
  {
    map id | id in was :: if id == self || (id in entities[..k] && id in unlocked) then group else was[id]
  }

  lemma NobodyJoined(was: map<EntityId, EntityGroup?>, self: EntityId, group: EntityGroup, entities: seq<EntityId>,
                     unlocked: set<EntityId>)
    requires self in was
    ensures GroupsAfter(was, self, group, entities, 0, unlocked) == was[self := group]
  {
  }

  /** One entity is stored in the group and, if it has a channel, cascades. */
  method AddMember(channels: map<EntityId, Controller>, id: EntityId, group: EntityGroup, ghost unlocked: set<EntityId>)
    requires LocksAside(channels, group, unlocked)
    modifies channels.Values`handover, group
    ensures LocksAside(channels, group, unlocked)
    ensures var joins := id in channels && id in unlocked;
            && HandoverOf(channels) ==
                 (if joins then old(HandoverOf(channels))[id := group] else old(HandoverOf(channels)))
            && group.ids == old(group.ids) + {id} + if joins then old(Members(channels[id].handover)) else {}
  {
    group.ids := group.ids + {id};
    if id in channels {
      channels[id].CascadeHandover(group);
    }
  }

  lemma OneMoreGathered(start: set<EntityId>, entities: seq<EntityId>, k: nat, brings: map<EntityId, set<EntityId>>)
    requires k < |entities|
    ensures var id := entities[k];
            Gathered(start, entities, k + 1, brings) ==
                Gathered(start, entities, k, brings) + {id} + if id in brings then brings[id] else {}
  {
  }

  lemma OneMoreHandover(was: map<EntityId, EntityGroup?>, self: EntityId, group: EntityGroup, entities: seq<EntityId>,
                        k: nat, unlocked: set<EntityId>)
    requires k < |entities|
    ensures var before, id := GroupsAfter(was, self, group, entities, k, unlocked), entities[k];
            GroupsAfter(was, self, group, entities, k + 1, unlocked) ==
              if id in was && id in unlocked then before[id := group] else before
  {
    assert entities[..k + 1] == entities[..k] + [entities[k]];
  }

  /** Before the first entity is added, `self` already holds the growing group. */
  ghost predicate Started(was: map<EntityId, EntityGroup?>, brings: map<EntityId, set<EntityId>>, group: EntityGroup,
                          self: EntityId) {
    self in was && (was[self] == group || (self in brings ==> brings[self] == {}))
  }

  /** What joining brings is what the entity's group had at the start, if it is not the growing group. */
  lemma BroughtIsKnown(was: map<EntityId, EntityGroup?>, brings: map<EntityId, set<EntityId>>, group: EntityGroup,
                       start: set<EntityId>, self: EntityId, entities: seq<EntityId>, k: nat)
    requires k < |entities| && entities[k] in brings && BringsAre(was, brings, group, start)
    requires group.ids == Gathered(start, entities, k, brings) && Started(was, brings, group, self)
    ensures var id := entities[k];
            group.ids + {id} + Members(GroupsAfter(was, self, group, entities, k, brings.Keys)[id]) ==
                group.ids + {id} + brings[id]
  {
    var id := entities[k];
    GatheredKeeps(start, entities, k, brings);
    if id in entities[..k] {
      GatheredGrows(start, entities, k, brings, id);
    }
    hide Gathered;
  }

  method AddMembers(channels: map<EntityId, Controller>, self: EntityId, group: EntityGroup, entities: seq<EntityId>,
                    ghost was: map<EntityId, EntityGroup?>, ghost brings: map<EntityId, set<EntityId>>)
    requires LocksAside(channels, group, brings.Keys) && BringsAre(was, brings, group, group.ids)
    requires Started(was, brings, group, self)
    requires HandoverOf(channels) == GroupsAfter(was, self, group, entities, 0, brings.Keys)
    modifies channels.Values`handover, group
    ensures HandoverOf(channels) == GroupsAfter(was, self, group, entities, |entities|, brings.Keys)
    ensures group.ids == Gathered(old(group.ids), entities, |entities|, brings)
  {
    ghost var start := group.ids;
    NothingGathered(start, entities, brings);
    hide Gathered, LocksAside, GroupsAfter, HandoverOf, Started, BringsAre;
    for k := 0 to |entities|
      modifies channels.Values`handover, group
      invariant LocksAside(channels, group, brings.Keys) && BringsAre(was, brings, group, start)
      invariant HandoverOf(channels) == GroupsAfter(was, self, group, entities, k, brings.Keys)
      invariant group.ids == Gathered(start, entities, k, brings)
    {
      OneMoreGathered(start, entities, k, brings);
      OneMoreHandover(was, self, group, entities, k, brings.Keys);
      KeysOf(channels, was, self, group, entities, k, brings.Keys);
      if entities[k] in brings {
        BroughtIsKnown(was, brings, group, start, self, entities, k);
      }
      AddMember(channels, entities[k], group, brings.Keys);
    }
  }

  lemma NothingGathered(start: set<EntityId>, entities: seq<EntityId>, brings: map<EntityId, set<EntityId>>)
    ensures Gathered(start, entities, 0, brings) == start
  {
  }

  lemma KeysOf(channels: map<EntityId, Controller>, was: map<EntityId, EntityGroup?>, self: EntityId,
               group: EntityGroup, entities: seq<EntityId>, k: nat, unlocked: set<EntityId>)
    requires k <= |entities| && HandoverOf(channels) == GroupsAfter(was, self, group, entities, k, unlocked)
    ensures channels.Keys == was.Keys == HandoverOf(channels).Keys
    ensures forall id <- channels.Keys :: channels[id].handover == HandoverOf(channels)[id]
  {
    assert HandoverOf(channels).Keys == channels.Keys;
    assert GroupsAfter(was, self, group, entities, k, unlocked).Keys == was.Keys;
  }

  /** A first group without members changes nothing for what others bring. */
  method SetHandoverGroup(channels: map<EntityId, Controller>, self: EntityId, group: EntityGroup)
    requires self in channels && channels[self].handover == null && group.ids == {}
    requires forall id <- channels.Keys ::
               channels[id].id == id && channels[id].lock != group && channels[id].handover != group
    modifies {channels[self]}`handover
    ensures channels[self].handover == group
    ensures HandoverOf(channels) == old(HandoverOf(channels))[self := group]
    ensures forall id <- channels.Keys :: channels[id].lock != group
    ensures Brings(channels) == old(Brings(channels))
  {
    channels[self].handover := group;
    assert forall id <- channels.Keys :: channels[id].Locked() == old(channels[id].Locked());
  }

  /** The caller's handover group, a new one if there is none. */
  method OwnHandoverGroup(channels: map<EntityId, Controller>, self: EntityId) returns (group: EntityGroup)
    requires Registered(channels) && self in channels
    modifies {channels[self]}`handover
    ensures channels[self].handover == group
    ensures if old(channels[self].handover) == null then fresh(group) && group.ids == {}
            else group == old(channels[self].handover)
    ensures HandoverOf(channels) == old(HandoverOf(channels))[self := group]
    ensures forall id <- channels.Keys :: channels[id].lock != group
    ensures Brings(channels) == old(Brings(channels))
  {
    if channels[self].handover == null {
      group := new EntityGroup();
      SetHandoverGroup(channels, self, group);
    } else {
      group := channels[self].handover;
    }
  }

  lemma HandoverStarts(channels: map<EntityId, Controller>, self: EntityId, group: EntityGroup,
                       was: map<EntityId, EntityGroup?>)
    requires forall id <- channels.Keys :: channels[id].id == id && channels[id].lock != group
    requires self in channels && self in was && HandoverOf(channels) == was[self := group]
    requires was[self] == group || (was[self] == null && group.ids == {})
    ensures LocksAside(channels, group, Brings(channels).Keys) && BringsAre(was, Brings(channels), group, group.ids)
    ensures Started(was, Brings(channels), group, self)
  {
    assert was.Keys == HandoverOf(channels).Keys == channels.Keys;
    forall id <- was.Keys ensures id != self ==> was[id] == channels[id].handover {
      assert HandoverOf(channels)[id] == channels[id].handover;
    }
    hide HandoverOf;
  }

  lemma AllJoined(was: map<EntityId, EntityGroup?>, self: EntityId, group: EntityGroup, entities: seq<EntityId>,
                  unlocked: set<EntityId>)
    ensures forall id <- was.Keys ::
              && id in GroupsAfter(was, self, group, entities, |entities|, unlocked)
              && GroupsAfter(was, self, group, entities, |entities|, unlocked)[id] ==
                   if id == self || (id in entities && id in unlocked) then group else was[id]
  {
    assert entities[..|entities|] == entities;
  }

  /**
   Adds entities to an entity's handover group. Afterwards every listed entity that has a channel
   and is not locked holds the very group object of the caller. That group has its old members,
   the listed entities and the old members of the groups of those that joined, and nobody else.
   No other group changes, and no other controller.
   */
  method AddToHandoverGroup(channels: map<EntityId, Controller>, self: EntityId, entities: seq<EntityId>)
    requires Registered(channels) && self in channels
    modifies channels.Values`handover, channels[self].handover
    ensures var group := channels[self].handover;
            && group != null
            && (if old(channels[self].handover) == null then fresh(group) else group == old(channels[self].handover))
            && group.ids == Gathered(old(Members(channels[self].handover)), entities, |entities|, old(Brings(channels)))
            && HandoverOf(channels) ==
                 GroupsAfter(old(HandoverOf(channels)), self, group, entities, |entities|, old(Brings(channels)).Keys)
    ensures forall id <- channels.Keys ::
              channels[id].handover ==
                if id == self || (id in entities && !old(channels[id].Locked())) then channels[self].handover
                else old(channels[id].handover)
  {
    ghost var brings, was := Brings(channels), HandoverOf(channels);
    assert forall id <- channels.Keys :: id in was && was[id] == channels[id].handover;
    assert forall id <- channels.Keys :: id in brings <==> !channels[id].Locked();
    hide Gathered, LocksAside, BringsAre, Brings, HandoverOf, GroupsAfter, Started;
    var group := OwnHandoverGroup(channels, self);
    HandoverStarts(channels, self, group, was);
    NobodyJoined(was, self, group, entities, brings.Keys);
    AddMembers(channels, self, group, entities, was, brings);
    KeysOf(channels, was, self, group, entities, |entities|, brings.Keys);
    AllJoined(was, self, group, entities, brings.Keys);
  }

  // ---- locking ----

  /**
   Which entities would join `self`'s lock group, and whom each would bring along: the members of its
   handover group. One that holds that very lock group already counts as locked as soon as an
   entity is stored in it, and so does `self`.
   */
  ghost function LockBrings(channels: map<EntityId, Controller>, self: EntityId): map<EntityId, set<EntityId>>
    requires self in channels
    reads channels.Values, Groups(channels)
  {
    map id | id in channels && id != self && !channels[id].Locked()
        && (channels[id].lock == null || channels[id].lock != channels[self].lock)
      :: Members(channels[id].handover)
  }

  ghost function LockOf(channels: map<EntityId, Controller>): map<EntityId, EntityGroup?>
    reads channels.Values
  {
    map id | id in channels :: channels[id].lock
  }

  /** How whom an entity brings follows from the locks before, while none but `group` grows. */
  ghost predicate LockBringsAre(channels: map<EntityId, Controller>, self: EntityId, group: EntityGroup,
                                was: map<EntityId, EntityGroup?>, unlocked: set<EntityId>,
                                brings: map<EntityId, set<EntityId>>)
    reads channels.Values`handover,
          (set id | id in channels && channels[id].handover != group :: channels[id].handover),
          set g: EntityGroup | g in was.Values && g != group
  {
    && was.Keys == channels.Keys
    && (forall id <- channels.Keys :: channels[id].id == id && channels[id].handover != group)
    && (forall id <- channels.Keys :: id in brings <==> id in unlocked && id != self && was[id] != group)
    && (forall id <- was.Keys :: was[id] != group ==> (id in unlocked <==> Members(was[id]) == {}))
    && (forall id <- brings.Keys :: id in channels && brings[id] == Members(channels[id].handover))
  }

  /** Already locked, or about to be, once an entity is stored in the group. */
  ghost predicate Joined(lock: EntityGroup?, group: EntityGroup)
    reads lock
  {
    lock != null && (lock == group || lock.ids != {})
  }

  method LockMember(channels: map<EntityId, Controller>, id: EntityId, group: EntityGroup)
    requires forall id <- channels.Keys :: channels[id].id == id && channels[id].handover != group
    modifies channels.Values`lock, group
    ensures var joins := id in channels && !old(Joined(channels[id].lock, group));
            && LockOf(channels) == (if joins then old(LockOf(channels))[id := group] else old(LockOf(channels)))
            && group.ids == old(group.ids) + {id} + if joins then old(Members(channels[id].handover)) else {}
  {
    group.ids := group.ids + {id};
    if id in channels {
      channels[id].CascadeLock(group);
    }
  }

  lemma LockKeysOf(channels: map<EntityId, Controller>, was: map<EntityId, EntityGroup?>, self: EntityId,
                   group: EntityGroup, entities: seq<EntityId>, k: nat, unlocked: set<EntityId>)
    requires k <= |entities| && LockOf(channels) == GroupsAfter(was, self, group, entities, k, unlocked)
    ensures channels.Keys == was.Keys == LockOf(channels).Keys
    ensures forall id <- channels.Keys :: channels[id].lock == LockOf(channels)[id]
  {
    assert LockOf(channels).Keys == channels.Keys;
    assert GroupsAfter(was, self, group, entities, k, unlocked).Keys == was.Keys;
  }

  /** Who joins at step `k`, and that the group and the locks are then as they should be. */
  lemma LockStep(channels: map<EntityId, Controller>, self: EntityId, group: EntityGroup, entities: seq<EntityId>,
                 k: nat, was: map<EntityId, EntityGroup?>, unlocked: set<EntityId>,
                 brings: map<EntityId, set<EntityId>>, start: set<EntityId>)
    requires k < |entities| && self in channels && LockBringsAre(channels, self, group, was, unlocked, brings)
    requires LockOf(channels) == GroupsAfter(was, self, group, entities, k, unlocked)
    requires group.ids == Gathered(start, entities, k, brings)
    ensures var id := entities[k];
            var joins := id in channels && !Joined(channels[id].lock, group);
            && GroupsAfter(was, self, group, entities, k + 1, unlocked) ==
                 (if joins then LockOf(channels)[id := group] else LockOf(channels))
            && Gathered(start, entities, k + 1, brings) ==
                 group.ids + {id} + if joins then Members(channels[id].handover) else {}
  {
    var id := entities[k];
    OneMoreGathered(start, entities, k, brings);
    OneMoreHandover(was, self, group, entities, k, unlocked);
    LockKeysOf(channels, was, self, group, entities, k, unlocked);
    if id in brings && id in entities[..k] {
      GatheredGrows(start, entities, k, brings, id);
    }
    hide Gathered, LockOf;
  }

  method LockMembers(channels: map<EntityId, Controller>, self: EntityId, group: EntityGroup, entities: seq<EntityId>,
                     ghost was: map<EntityId, EntityGroup?>, ghost unlocked: set<EntityId>,
                     ghost brings: map<EntityId, set<EntityId>>)
    requires self in channels && LockBringsAre(channels, self, group, was, unlocked, brings)
    requires LockOf(channels) == GroupsAfter(was, self, group, entities, 0, unlocked)
    modifies channels.Values`lock, group
    ensures LockOf(channels) == GroupsAfter(was, self, group, entities, |entities|, unlocked)
    ensures group.ids == Gathered(old(group.ids), entities, |entities|, brings)
  {
    ghost var start := group.ids;
    NothingGathered(start, entities, brings);
    hide Gathered, GroupsAfter, LockOf, Joined;
    for k := 0 to |entities|
      modifies channels.Values`lock, group
      invariant LockBringsAre(channels, self, group, was, unlocked, brings)
      invariant LockOf(channels) == GroupsAfter(was, self, group, entities, k, unlocked)
      invariant group.ids == Gathered(start, entities, k, brings)
    {
      LockStep(channels, self, group, entities, k, was, unlocked, brings, start);
      LockMember(channels, entities[k], group);
    }
  }

  /** A first lock group without members changes nothing for what others bring. */
  method SetLockGroup(channels: map<EntityId, Controller>, self: EntityId, group: EntityGroup)
    requires self in channels && channels[self].lock == null && group.ids == {}
    requires forall id <- channels.Keys ::
               channels[id].id == id && channels[id].lock != group && channels[id].handover != group
    modifies {channels[self]}`lock
    ensures channels[self].lock == group
    ensures LockOf(channels) == old(LockOf(channels))[self := group]
    ensures forall id <- channels.Keys :: channels[id].handover != group
    ensures Brings(channels) == old(Brings(channels)) && LockBrings(channels, self) == old(LockBrings(channels, self))
  {
    channels[self].lock := group;
    assert forall id <- channels.Keys :: channels[id].Locked() == old(channels[id].Locked());
  }

  /** The caller's lock group, a new one if there is none. */
  method OwnLockGroup(channels: map<EntityId, Controller>, self: EntityId) returns (group: EntityGroup)
    requires Registered(channels) && self in channels
    modifies {channels[self]}`lock
    ensures channels[self].lock == group
    ensures if old(channels[self].lock) == null then fresh(group) && group.ids == {}
            else group == old(channels[self].lock)
    ensures LockOf(channels) == old(LockOf(channels))[self := group]
    ensures forall id <- channels.Keys :: channels[id].handover != group
    ensures Brings(channels) == old(Brings(channels)) && LockBrings(channels, self) == old(LockBrings(channels, self))
  {
    if channels[self].lock == null {
      group := new EntityGroup();
      SetLockGroup(channels, self, group);
    } else {
      group := channels[self].lock;
    }
  }

  lemma BringsBefore(channels: map<EntityId, Controller>, self: EntityId, group: EntityGroup,
                     was: map<EntityId, EntityGroup?>)
    requires (forall id <- channels.Keys :: channels[id].id == id && channels[id].handover != group)
    requires self in channels && self in was && LockOf(channels) == was[self := group]
    requires was[self] == group || (was[self] == null && group.ids == {})
    ensures LockBringsAre(channels, self, group, was, Brings(channels).Keys, LockBrings(channels, self))
  {
    assert was.Keys == LockOf(channels).Keys == channels.Keys;
    forall id <- was.Keys ensures id != self ==> was[id] == channels[id].lock {
      assert LockOf(channels)[id] == channels[id].lock;
    }
    hide LockOf;
  }

  /**
   Adds entities to an entity's lock group. Afterwards every listed entity that has a channel and
   was not locked before holds the very lock group of the caller, which has its old members, the
   listed entities, and whom those that joined bring along. Entities that were locked keep their
   lock groups, and handover groups stay.
   */
  method AddToLockGroup(channels: map<EntityId, Controller>, self: EntityId, entities: seq<EntityId>)
    requires Registered(channels) && self in channels
    modifies channels.Values`lock, channels[self].lock
    ensures var group := channels[self].lock;
            && group != null
            && (if old(channels[self].lock) == null then fresh(group) else group == old(channels[self].lock))
            && group.ids == Gathered(old(Members(channels[self].lock)), entities, |entities|,
                 old(LockBrings(channels, self)))
    ensures LockOf(channels) ==
              GroupsAfter(old(LockOf(channels)), self, channels[self].lock, entities, |entities|,
                  old(Brings(channels)).Keys)
    ensures forall id <- channels.Keys ::
              channels[id].lock ==
                if id == self || (id in entities && !old(channels[id].Locked())) then channels[self].lock
                else old(channels[id].lock)
  {
    ghost var brings, was, unlocked := LockBrings(channels, self), LockOf(channels), Brings(channels).Keys;
    assert forall id <- channels.Keys :: id in was && was[id] == channels[id].lock;
    assert forall id <- channels.Keys :: id in unlocked <==> !channels[id].Locked();
    hide Gathered, LockBringsAre, Brings, LockBrings, LockOf, GroupsAfter;
    var group := OwnLockGroup(channels, self);
    BringsBefore(channels, self, group, was);
    NobodyJoined(was, self, group, entities, unlocked);
    LockMembers(channels, self, group, entities, was, unlocked, brings);
    LockKeysOf(channels, was, self, group, entities, |entities|, unlocked);
    AllJoined(was, self, group, entities, unlocked);
  }

  // ---- reading ----

  ghost predicate NoRepeats(ids: seq<EntityId>) {
    forall j, k :: 0 <= j < k < |ids| ==> ids[j] != ids[k]
  }

  /**
   An entity that never had a group moves alone, even when it is locked. Otherwise the whole group
   moves, or nobody: nobody iff the group is empty or one of its members is in the entity's lock group.
   */
  method GetHandoverEntities(c: Controller) returns (ids: seq<EntityId>)
    ensures NoRepeats(ids)
    ensures c.handover == null ==> ids == [c.id]
    ensures c.handover != null ==>
              (ids == [] || forall e :: e in ids <==> e in c.handover.ids)
              && (ids == [] <==> c.handover.ids == {} || c.handover.ids * Members(c.lock) != {})
  {
    if c.handover == null {
      return [c.id];
    }
    ids := [];
    var todo := c.handover.ids;
    while todo != {}
      invariant todo <= c.handover.ids && NoRepeats(ids)
      invariant forall e :: e in ids <==> e in c.handover.ids && e !in todo
      invariant forall e :: e in ids ==> e !in Members(c.lock)
      decreases |todo|
    {
      var key :| key in todo;
      if c.lock != null && key in c.lock.ids {
        assert key in c.handover.ids * Members(c.lock);
        return [];
      }
      ids := ids + [key];
      todo := todo - {key};
    }
    assert c.handover.ids * Members(c.lock) == {};
    assert if ids == [] then c.handover.ids == {} else ids[0] in c.handover.ids;
  }

  // ---- removing ----

  /** The entities up to and including the first that is the caller itself. */
  function UpTo(entities: seq<EntityId>, self: EntityId): seq<EntityId> {
    if entities == [] then []
    else if entities[0] == self then [self]
    else [entities[0]] + UpTo(entities[1..], self)
  }

  lemma {:induction false} UpToSnoc(entities: seq<EntityId>, id: EntityId, self: EntityId)
    ensures UpTo(entities + [id], self) ==
              if self in entities then UpTo(entities, self) else UpTo(entities, self) + [id]
  {
    if entities != [] {
      assert (entities + [id])[1..] == entities[1..] + [id];
      if entities[0] != self {
        UpToSnoc(entities[1..], id, self);
      }
    } else {
      assert [id][1..] == [];
    }
  }

  /** The entity is listed, and not for the first time after the caller. */
  predicate ListedBy(entities: seq<EntityId>, self: EntityId, e: EntityId) {
    exists j :: 0 <= j < |entities| && entities[j] == e && self !in entities[..j]
  }

  lemma {:induction false} UpToMembers(entities: seq<EntityId>, self: EntityId, e: EntityId)
    ensures e in UpTo(entities, self) <==> ListedBy(entities, self, e)
  {
    if entities != [] {
      UpToMembers(entities[1..], self, e);
      assert entities[0] == e ==> self !in entities[..0];
      forall j | 1 <= j < |entities|
        ensures self in entities[..j] <==> entities[0] == self || self in entities[1..][..j - 1]
      {
        assert entities[..j] == [entities[0]] + entities[1..][..j - 1];
      }
      if e in UpTo(entities[1..], self) && entities[0] != self {
        var j :| 0 <= j < |entities[1..]| && entities[1..][j] == e && self !in entities[1..][..j];
        assert entities[j + 1] == e && self !in entities[..j + 1];
      }
      if j :| 1 <= j < |entities| && entities[j] == e && self !in entities[..j] {
        assert entities[1..][j - 1] == e;
      }
    }
  }

  /**
   Removes entities from an entity's handover group; there is no group to remove from iff that
   fails. Each listed entity that has a channel gets a new, empty group. Once the caller itself has
   one, the entities listed after it are deleted from that instead of from the shared group.
   */
  method RemoveFromHandoverGroup(channels: map<EntityId, Controller>, self: EntityId, entities: seq<EntityId>)
    returns (ok: bool)
    requires Registered(channels) && self in channels
    modifies channels.Values`handover, channels[self].handover
    ensures ok <==> old(channels[self].handover) != null
    ensures ok ==>
              var left := old(channels[self].handover.ids) - set id | id in UpTo(entities, self);
              old(channels[self].handover).ids == left
    ensures forall id <- channels.Keys ::
              if ok && id in entities then
                channels[id].handover != null && fresh(channels[id].handover) && channels[id].handover.ids == {}
              else channels[id].handover == old(channels[id].handover)
  {
    if channels[self].handover == null {
      return false;
    }
    var shared := channels[self].handover;
    for k := 0 to |entities|
      modifies channels.Values`handover, shared
      invariant shared.ids == old(channels[self].handover.ids) - set id | id in UpTo(entities[..k], self)
      invariant forall id <- channels.Keys ::
                  if id in entities[..k] then
                    channels[id].handover != null && fresh(channels[id].handover) && channels[id].handover.ids == {}
                  else channels[id].handover == old(channels[id].handover)
    {
      var id := entities[k];
      assert entities[..k + 1] == entities[..k] + [id];
      UpToSnoc(entities[..k], id, self);
      hide UpTo;
      channels[self].handover.ids := channels[self].handover.ids - {id};
      if id in channels {
        channels[id].handover := new EntityGroup();
      }
    }
    assert entities[..|entities|] == entities;
    return true;
  }

  /**
   The shared group loses every listed entity iff none of its members is listed for the first time
   after the caller.
   */
  lemma RemovalIsCompleteIff(group: set<EntityId>, entities: seq<EntityId>, self: EntityId)
    ensures (forall e :: e in entities ==> e !in group - set id | id in UpTo(entities, self)) <==>
            forall e :: e in entities && e in group ==> ListedBy(entities, self, e)
  {
    forall e ensures e in UpTo(entities, self) <==> ListedBy(entities, self, e) {
      UpToMembers(entities, self, e);
    }
  }

  /** An entity that removes itself and another one leaves the other one in the group. */
  lemma SelfFirstLeavesOthers()
    ensures {1, 2, 3} - (set id | id in UpTo([1, 2], 1)) == {2, 3}
  {
    assert UpTo([1, 2], 1) == [1];
  }
}

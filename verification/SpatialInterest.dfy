/** Updating a client's spatial interest: what is queued to which channels, and where that leads. */
module SpatialInterest {
  import opened Prelude
  import opened SpatialGrid
  import SpatialQuery

  type Conn = nat   // a connection, by identity

  // ---- damping ----

  /** Up to this distance, updates are fanned out at this interval. */
  datatype Damping = Damping(maxDistance: nat, intervalMs: nat)

  const DAMPING_SETTINGS := [Damping(0, 20), Damping(1, 50), Damping(2, 100)]

  predicate FirstThatCovers(settings: seq<Damping>, dist: nat, i: nat) {
    i < |settings| && dist <= settings[i].maxDistance && forall j :: 0 <= j < i ==> dist > settings[j].maxDistance
  }

  method GetSpatialDampingSettings(dist: nat) returns (r: Option<Damping>)
    ensures r.Some? ==> exists i: nat :: FirstThatCovers(DAMPING_SETTINGS, dist, i) && r.value == DAMPING_SETTINGS[i]
    ensures r.None? <==> forall i :: 0 <= i < |DAMPING_SETTINGS| ==> dist > DAMPING_SETTINGS[i].maxDistance
  {
    for k := 0 to |DAMPING_SETTINGS|
      invariant forall j :: 0 <= j < k ==> dist > DAMPING_SETTINGS[j].maxDistance
    {
      if dist <= DAMPING_SETTINGS[k].maxDistance {
        assert FirstThatCovers(DAMPING_SETTINGS, dist, k);
        return Some(DAMPING_SETTINGS[k]);
      }
    }
    return None;
  }

  /** The interval at a distance; beyond all settings, the channel type's default. */
  function DampedInterval(dist: nat, defaultMs: nat): nat {
    if dist == 0 then 20 else if dist == 1 then 50 else if dist == 2 then 100 else defaultMs
  }

  lemma DampedByTable(dist: nat, r: Option<Damping>, defaultMs: nat)
    requires r.Some? ==> exists i: nat :: FirstThatCovers(DAMPING_SETTINGS, dist, i) && r.value == DAMPING_SETTINGS[i]
    requires r.None? <==> forall i :: 0 <= i < |DAMPING_SETTINGS| ==> dist > DAMPING_SETTINGS[i].maxDistance
    ensures DampedInterval(dist, defaultMs) == if r.None? then defaultMs else r.value.intervalMs
  {
    assert |DAMPING_SETTINGS| == 3;
    assert DAMPING_SETTINGS[0] == Damping(0, 20) && DAMPING_SETTINGS[1] == Damping(1, 50);
    assert DAMPING_SETTINGS[2] == Damping(2, 100);
  }

  /** Who is farther away is updated no more often, if the default is none of the shorter ones. */
  lemma FartherIsSlower(near: nat, far: nat, defaultMs: nat)
    requires near <= far && 100 <= defaultMs
    ensures DampedInterval(near, defaultMs) <= DampedInterval(far, defaultMs)
    ensures near < far && far <= 2 ==> DampedInterval(near, defaultMs) < DampedInterval(far, defaultMs)
  {
  }

  /** The keys of one map that the other does not have, with their values. */
  method Difference<K, V, W>(these: map<K, V>, others: map<K, W>) returns (result: map<K, V>)
    ensures result == map k | k in these && k !in others :: these[k]
  {
    result := map[];
    var todo := these.Keys;
    while todo != {}
      invariant todo <= these.Keys
      invariant result == map k | k in these && k !in others && k !in todo :: these[k]
      decreases |todo|
    {
      var k :| k in todo;
      if k !in others {
        result := result[k := these[k]];
      }
      todo := todo - {k};
    }
  }

  // ---- channels, queues and handlers ----

  /** A queued message: a connection subscribes with a fan-out interval, or unsubscribes. */
  datatype Task = Sub(conn: Conn, intervalMs: nat) | Unsub(conn: Conn)

  /** Subscriptions with their fan-out intervals, the queue of messages to handle, and the owner. */
  datatype Channel = Channel(subs: map<Conn, nat>, queue: seq<Task>, owner: Option<Conn>)

  /** The live spatial channels, the spatialSubscriptions of each connection, and who is closing. */
  datatype State = State(channels: map<ChannelId, Channel>, spatial: map<Conn, set<ChannelId>>, closing: set<Conn>)

  function Mine(s: State, c: Conn): set<ChannelId> {
    if c in s.spatial then s.spatial[c] else {}
  }

  /** An open owner that leaves owns the channel no longer. */
  function OwnerWithout(ch: Channel, c: Conn, closing: set<Conn>): Option<Conn> {
    if ch.owner == Some(c) && c !in closing then None else ch.owner
  }

  /** A channel handles a message. A repeated subscription only changes the interval. */
  function Handled(s: State, id: ChannelId, t: Task): State
    requires id in s.channels
  {
    var ch := s.channels[id];
    match t
    case Sub(c, interval) =>
      if c in s.closing then s
      else s.(channels := s.channels[id := ch.(subs := ch.subs[c := interval])],
              spatial := if c in ch.subs then s.spatial else s.spatial[c := Mine(s, c) + {id}])
    case Unsub(c) =>
      if c in s.closing || c !in ch.subs then s
      else s.(channels := s.channels[id := ch.(subs := ch.subs - {c}, owner := OwnerWithout(ch, c, s.closing))],
              spatial := s.spatial[c := Mine(s, c) - {id}])
  }

  function Posted(ch: Channel, t: Task): Channel {
    ch.(queue := ch.queue + [t])
  }

  /** Channel `here` handles its message at once; the other channels get theirs queued. */
  function Dispatched(s: State, here: ChannelId, tasks: map<ChannelId, Task>): State {
    var s1 := if here in tasks && here in s.channels then Handled(s, here, tasks[here]) else s;
    s1.(channels := map id | id in s1.channels ::
          if id in tasks && id != here then Posted(s1.channels[id], tasks[id]) else s1.channels[id])
  }

  /** The messages that replace the client's subscriptions `mine` by those wanted. */
  function Tasks(mine: set<ChannelId>, c: Conn, wanted: map<ChannelId, nat>): map<ChannelId, Task> {
    map id | id in mine + wanted.Keys :: if id in wanted then Sub(c, wanted[id]) else Unsub(c)
  }

  function UnsubTasks(s: State, c: Conn, wanted: map<ChannelId, nat>): map<ChannelId, Task> {
    Part(Tasks(Mine(s, c), c, wanted), Mine(s, c) - wanted.Keys)
  }

  function SubTasks(s: State, c: Conn, wanted: map<ChannelId, nat>): map<ChannelId, Task> {
    Part(Tasks(Mine(s, c), c, wanted), wanted.Keys)
  }

  lemma TasksAre(s: State, c: Conn, wanted: map<ChannelId, nat>)
    ensures UnsubTasks(s, c, wanted).Keys == Mine(s, c) - wanted.Keys
    ensures forall id <- UnsubTasks(s, c, wanted).Keys :: UnsubTasks(s, c, wanted)[id] == Unsub(c)
    ensures SubTasks(s, c, wanted).Keys == wanted.Keys
    ensures forall id <- wanted.Keys :: SubTasks(s, c, wanted)[id] == Sub(c, wanted[id])
  {
  }

  /** What a query's answer asks for. */
  function Wanted(answer: SpatialQuery.Distances, defaultMs: nat): map<ChannelId, nat> {
    map id | id in answer :: DampedInterval(answer[id], defaultMs)
  }

  function Updated(s: State, here: ChannelId, c: Conn, wanted: map<ChannelId, nat>): State {
    Dispatched(Dispatched(s, here, UnsubTasks(s, c, wanted)), here, SubTasks(s, c, wanted))
  }

  /** The messages for these channels only. */
  function Part(tasks: map<ChannelId, Task>, ids: set<ChannelId>): map<ChannelId, Task> {
    map k | k in tasks && k in ids :: tasks[k]
  }

  lemma DispatchedHere(s: State, here: ChannelId, tasks: map<ChannelId, Task>, done: set<ChannelId>)
    requires here in tasks && here !in done && here in s.channels
    ensures var before := Dispatched(s, here, Part(tasks, done));
            Dispatched(s, here, Part(tasks, done + {here})) == Handled(before, here, tasks[here])
  {
    var before, after := Dispatched(s, here, Part(tasks, done)), Dispatched(s, here, Part(tasks, done + {here}));
    assert before.channels[here] == s.channels[here];
    HandledHere(s, before, here, tasks[here]);
    hide Handled, Posted;
    assert after.channels == Handled(before, here, tasks[here]).channels;
  }

  /** Handling looks at the channel and the client's subscriptions, and changes no other channel. */
  lemma HandledHere(s: State, s': State, here: ChannelId, t: Task)
    requires here in s.channels && here in s'.channels && s'.channels[here] == s.channels[here]
    requires s'.spatial == s.spatial && s'.closing == s.closing
    ensures Handled(s', here, t).channels == s'.channels[here := Handled(s, here, t).channels[here]]
    ensures Handled(s, here, t).channels == s.channels[here := Handled(s, here, t).channels[here]]
    ensures Handled(s', here, t).spatial == Handled(s, here, t).spatial
    ensures Handled(s', here, t).closing == Handled(s, here, t).closing == s.closing
  {
  }

  lemma DispatchedThere(s: State, here: ChannelId, tasks: map<ChannelId, Task>, done: set<ChannelId>, id: ChannelId)
    requires id in tasks && id !in done && id in s.channels && id != here
    ensures var before := Dispatched(s, here, Part(tasks, done));
            Dispatched(s, here, Part(tasks, done + {id})) ==
              before.(channels := before.channels[id := Posted(before.channels[id], tasks[id])])
  {
    hide Handled, Posted;
    var before, after := Dispatched(s, here, Part(tasks, done)), Dispatched(s, here, Part(tasks, done + {id}));
    HandledChannels(s, here, tasks);
    assert after.channels == before.channels[id := Posted(before.channels[id], tasks[id])];
  }

  lemma HandledChannels(s: State, here: ChannelId, tasks: map<ChannelId, Task>)
    ensures here in s.channels && here in tasks ==> Handled(s, here, tasks[here]).channels.Keys == s.channels.Keys
  {
  }

  lemma DispatchedNowhere(s: State, here: ChannelId, tasks: map<ChannelId, Task>, done: set<ChannelId>, id: ChannelId)
    requires id in tasks && id !in done && id !in s.channels
    ensures Dispatched(s, here, Part(tasks, done + {id})) == Dispatched(s, here, Part(tasks, done))
  {
    hide Handled, Posted;
    HandledChannels(s, here, tasks);
    assert Dispatched(s, here, Part(tasks, done + {id})).channels == Dispatched(s, here, Part(tasks, done)).channels;
  }

  class Channels {
    var channels: map<ChannelId, Channel>
    var spatial: map<Conn, set<ChannelId>>
    var closing: set<Conn>

    ghost function Now(): State
      reads this
    {
      State(channels, spatial, closing)
    }

    constructor (s: State)
      ensures Now() == s
    {
      channels, spatial, closing := s.channels, s.spatial, s.closing;
    }

    /** The part of handling a message that concerns the tables. */
    method Handle(id: ChannelId, t: Task)
      requires id in channels
      modifies this`channels, this`spatial
      ensures Now() == Handled(old(Now()), id, t)
    {
      var ch := channels[id];
      var mine := if t.conn in spatial then spatial[t.conn] else {};
      match t {
        case Sub(c, interval) =>
          if c !in closing {
            if c !in ch.subs {
              spatial := spatial[c := mine + {id}];
            }
            channels := channels[id := ch.(subs := ch.subs[c := interval])];
          }
        case Unsub(c) =>
          if c !in closing && c in ch.subs {
            ch := ch.(subs := ch.subs - {c});
            if ch.owner.Some? && ch.owner.value !in closing && ch.owner.value == c {
              ch := ch.(owner := None);
            }
            channels := channels[id := ch];
            spatial := spatial[c := mine - {id}];
          }
      }
    }

    /** Sends every live channel its message; a message to the current channel is handled directly. */
    method Dispatch(here: ChannelId, tasks: map<ChannelId, Task>)
      modifies this`channels, this`spatial
      ensures Now() == Dispatched(old(Now()), here, tasks)
    {
      ghost var s := Now();
      var todo := tasks.Keys;
      NothingDispatched(s, here, tasks);
      while todo != {}
        modifies this`channels, this`spatial
        invariant todo <= tasks.Keys
        invariant Now() == Dispatched(s, here, Part(tasks, tasks.Keys - todo))
        decreases |todo|
      {
        var id :| id in todo;
        if id !in s.channels {
          DispatchedNowhere(s, here, tasks, tasks.Keys - todo, id);
        } else if id == here {
          DispatchedHere(s, here, tasks, tasks.Keys - todo);
        } else {
          DispatchedThere(s, here, tasks, tasks.Keys - todo, id);
        }
        SameChannels(s, here, Part(tasks, tasks.Keys - todo));
        assert tasks.Keys - (todo - {id}) == tasks.Keys - todo + {id};
        hide Dispatched, Handled;
        if id in channels {
          if id == here {
            Handle(id, tasks[id]);
          } else {
            channels := channels[id := Posted(channels[id], tasks[id])];
          }
        }
        todo := todo - {id};
      }
      assert Part(tasks, tasks.Keys - {}) == tasks;
    }

    lemma NothingDispatched(s: State, here: ChannelId, tasks: map<ChannelId, Task>)
      ensures Dispatched(s, here, Part(tasks, {})) == s
      ensures Part(tasks, tasks.Keys - tasks.Keys) == Part(tasks, {})
    {
      assert Dispatched(s, here, Part(tasks, {})).channels == s.channels;
    }

    lemma SameChannels(s: State, here: ChannelId, tasks: map<ChannelId, Task>)
      ensures Dispatched(s, here, tasks).channels.Keys == s.channels.Keys
    {
    }

    /** Runs in channel `here`; a query that failed changes nothing. */
    method HandleUpdateSpatialInterest(here: ChannelId, client: Conn, answer: Result<SpatialQuery.Distances>,
                                       defaultMs: nat)
      modifies this`channels, this`spatial
      ensures Now() == if answer.Err? then old(Now())
                       else Updated(old(Now()), here, client, Wanted(answer.value, defaultMs))
    {
      if answer.Err? {
        return;
      }
      var wanted := WantedChannels(answer.value, defaultMs);
      var mine := if client in spatial then spatial[client] else {};
      var existing := map id | id in mine :: true;
      var toUnsub := Difference(existing, wanted);
      var tasks := Tasks(mine, client, wanted);
      assert toUnsub.Keys == mine - wanted.Keys;
      var unsubs, subs := Part(tasks, toUnsub.Keys), Part(tasks, wanted.Keys);
      hide Dispatched, Tasks, Part;
      Dispatch(here, unsubs);
      Dispatch(here, subs);
    }

    method WantedChannels(answer: SpatialQuery.Distances, defaultMs: nat) returns (wanted: map<ChannelId, nat>)
      ensures wanted == Wanted(answer, defaultMs)
    {
      wanted := map[];
      var todo := answer.Keys;
      while todo != {}
        invariant todo <= answer.Keys
        invariant wanted == map id | id in answer && id !in todo :: DampedInterval(answer[id], defaultMs)
        decreases |todo|
      {
        var id :| id in todo;
        var settings := GetSpatialDampingSettings(answer[id]);
        DampedByTable(answer[id], settings, defaultMs);
        wanted := wanted[id := if settings.None? then defaultMs else settings.value.intervalMs];
        todo := todo - {id};
      }
    }
  }
}

/** Where a client's interest ends up once everything that an update has queued is handled. */
module InterestRuns {
  import opened Prelude
  import opened SpatialGrid
  import opened SpatialInterest

  function Current(ch: Channel, c: Conn): Option<nat> {
    if c in ch.subs then Some(ch.subs[c]) else None
  }

  function AfterOne(t: Task, c: Conn, current: Option<nat>): Option<nat> {
    if t.conn != c then current else if t.Sub? then Some(t.intervalMs) else None
  }

  /** The client's interval, if it is subscribed, after these messages. */
  function After(queue: seq<Task>, c: Conn, current: Option<nat>): Option<nat> {
    if queue == [] then current
    else After(queue[1..], c, AfterOne(queue[0], c, current))
  }

  function Settled(ch: Channel, c: Conn): Option<nat> {
    After(ch.queue, c, Current(ch, c))
  }

  predicate Awaits(ch: Channel, c: Conn) {
    exists i :: 0 <= i < |ch.queue| && ch.queue[i].conn == c
  }

  lemma {:induction false} AfterSnoc(queue: seq<Task>, t: Task, c: Conn, current: Option<nat>)
    ensures After(queue + [t], c, current) == AfterOne(t, c, After(queue, c, current))
  {
    if queue == [] {
      assert queue + [t] == [t];
    } else {
      assert (queue + [t])[1..] == queue[1..] + [t];
      AfterSnoc(queue[1..], t, c, AfterOne(queue[0], c, current));
    }
  }

  lemma {:induction false} AfterOthers(queue: seq<Task>, c: Conn, current: Option<nat>)
    requires forall i :: 0 <= i < |queue| ==> queue[i].conn != c
    ensures After(queue, c, current) == current
  {
    if queue != [] {
      AfterOthers(queue[1..], c, current);
    }
  }

  /** The last queued message of the client decides, whatever it had. */
  lemma {:induction false} LastWordCounts(queue: seq<Task>, c: Conn, one: Option<nat>, other: Option<nat>)
    requires exists i :: 0 <= i < |queue| && queue[i].conn == c
    ensures After(queue, c, one) == After(queue, c, other)
  {
    if queue[0].conn != c {
      LastWordCounts(queue[1..], c, one, other);
    }
  }

  /** The client holds a live channel in its spatialSubscriptions iff the channel holds the client. */
  ghost predicate Agree(s: State, c: Conn) {
    forall id <- s.channels.Keys :: id in Mine(s, c) <==> c in s.channels[id].subs
  }

  function Goal(wanted: map<ChannelId, nat>, id: ChannelId): Option<nat> {
    if id in wanted then Some(wanted[id]) else None
  }

  /** Once all is handled, the client is subscribed to the wanted live channels, at the wanted intervals. */
  ghost predicate Converges(s: State, c: Conn, wanted: map<ChannelId, nat>) {
    forall id <- s.channels.Keys :: Settled(s.channels[id], c) == Goal(wanted, id)
  }

  lemma DispatchedChannel(s: State, here: ChannelId, c: Conn, tasks: map<ChannelId, Task>, id: ChannelId)
    requires c !in s.closing && id in s.channels && here in s.channels && forall k <- tasks.Keys :: tasks[k].conn == c
    ensures var s' := Dispatched(s, here, tasks);
            && s'.closing == s.closing && id in s'.channels
            && s'.channels[id].queue ==
                 s.channels[id].queue + (if id in tasks && id != here then [tasks[id]] else [])
            && Current(s'.channels[id], c) ==
                 (if id == here && id in tasks then (if tasks[id].Sub? then Some(tasks[id].intervalMs) else None)
                  else Current(s.channels[id], c))
  {
  }

  lemma DispatchedAgrees(s: State, here: ChannelId, c: Conn, tasks: map<ChannelId, Task>)
    requires Agree(s, c) && c !in s.closing && here in s.channels && forall k <- tasks.Keys :: tasks[k].conn == c
    ensures Agree(Dispatched(s, here, tasks), c)
  {
  }

  /** What an update makes of one channel. */
  lemma UpdatedSettles(s: State, here: ChannelId, c: Conn, wanted: map<ChannelId, nat>, id: ChannelId)
    requires c !in s.closing && id in s.channels && here in s.channels
    ensures var s' := Updated(s, here, c, wanted);
            && id in s'.channels
            && Settled(s'.channels[id], c) ==
                 if id == here && Awaits(s.channels[here], c) then Settled(s.channels[here], c)
                 else if id in wanted || id in Mine(s, c) then Goal(wanted, id)
                 else Settled(s.channels[id], c)
  {
    var unsubs, subs := UnsubTasks(s, c, wanted), SubTasks(s, c, wanted);
    var mid := Dispatched(s, here, unsubs);
    DispatchedChannel(s, here, c, unsubs, id);
    DispatchedChannel(s, here, c, unsubs, here);
    DispatchedChannel(mid, here, c, subs, id);
    TasksAre(s, c, wanted);
    hide Dispatched, UnsubTasks, SubTasks;
    var ch := s.channels[id];
    if id == here {
      var now := Current(Updated(s, here, c, wanted).channels[id], c);
      if Awaits(ch, c) {
        LastWordCounts(ch.queue, c, Current(ch, c), now);
      } else {
        AfterOthers(ch.queue, c, Current(ch, c));
        AfterOthers(ch.queue, c, now);
      }
    } else if id in wanted {
      AfterSnoc(ch.queue, Sub(c, wanted[id]), c, Current(ch, c));
    } else if id in Mine(s, c) {
      AfterSnoc(ch.queue, Unsub(c), c, Current(ch, c));
    }
  }

  /**
   An update leads to what it wants iff nothing queued before it subscribes the client to another
   channel that it neither holds yet nor wants, and what is queued in the current channel, whose
   part of the update is handled at once, ends where the update does.
   */
  lemma UpdateConvergesIff(s: State, here: ChannelId, c: Conn, wanted: map<ChannelId, nat>)
    requires Agree(s, c) && c !in s.closing && here in s.channels
    ensures var s' := Updated(s, here, c, wanted);
            && Agree(s', c) && s'.closing == s.closing
            && (Converges(s', c, wanted) <==>
                  && (Awaits(s.channels[here], c) ==> Settled(s.channels[here], c) == Goal(wanted, here))
                  && forall id <- s.channels.Keys ::
                       id != here && id !in Mine(s, c) && id !in wanted ==> Settled(s.channels[id], c).None?)
  {
    hide UnsubTasks, SubTasks;
    TasksAre(s, c, wanted);
    var s' := Updated(s, here, c, wanted);
    assert Agree(s', c) by {
      DispatchedAgrees(s, here, c, UnsubTasks(s, c, wanted));
      DispatchedChannel(s, here, c, UnsubTasks(s, c, wanted), here);
      DispatchedAgrees(Dispatched(s, here, UnsubTasks(s, c, wanted)), here, c, SubTasks(s, c, wanted));
    }
    UpdatedKeys(s, here, c, wanted);
    forall id | id in s.channels
      ensures Settled(s'.channels[id], c) ==
                if id == here && Awaits(s.channels[here], c) then Settled(s.channels[here], c)
                else if id in wanted || id in Mine(s, c) then Goal(wanted, id)
                else Settled(s.channels[id], c)
    {
      UpdatedSettles(s, here, c, wanted, id);
    }
    if !Awaits(s.channels[here], c) {
      AfterOthers(s.channels[here].queue, c, Current(s.channels[here], c));
    }
    hide Updated, Settled, Awaits;
  }

  lemma UpdatedKeys(s: State, here: ChannelId, c: Conn, wanted: map<ChannelId, nat>)
    ensures Updated(s, here, c, wanted).channels.Keys == s.channels.Keys
    ensures Updated(s, here, c, wanted).closing == s.closing
  {
  }

  // ---- runs ----

  datatype Event =
    | Handles(id: ChannelId)            // a channel handles the first message in its queue
    | Posts(id: ChannelId, t: Task)     // a message of some connection is queued
    | Removes(id: ChannelId)
    | Closes(conn: Conn)

  function Step(s: State, ev: Event): State {
    match ev
    case Handles(id) =>
      if id in s.channels && s.channels[id].queue != [] then
        var ch := s.channels[id];
        Handled(s.(channels := s.channels[id := ch.(queue := ch.queue[1..])]), id, ch.queue[0])
      else s
    case Posts(id, t) => if id in s.channels then s.(channels := s.channels[id := Posted(s.channels[id], t)]) else s
    case Removes(id) => s.(channels := s.channels - {id})
    case Closes(conn) => s.(closing := s.closing + {conn})
  }

  /** Steps in which the client neither closes nor asks for anything else. */
  predicate Leaves(ev: Event, c: Conn) {
    (ev.Posts? ==> ev.t.conn != c) && (ev.Closes? ==> ev.conn != c)
  }

  ghost predicate Run(s: State, events: seq<Event>, c: Conn, end: State)
    decreases |events|
  {
    if events == [] then end == s
    else Leaves(events[0], c) && Run(Step(s, events[0]), events[1..], c, end)
  }

  lemma StepKeepsAgreement(s: State, ev: Event, c: Conn)
    requires Agree(s, c) && c !in s.closing && Leaves(ev, c)
    ensures var s' := Step(s, ev); Agree(s', c) && c !in s'.closing && s'.channels.Keys <= s.channels.Keys
  {
  }

  lemma HandlingSettles(s: State, id: ChannelId, c: Conn)
    requires c !in s.closing && id in s.channels && s.channels[id].queue != []
    ensures var s' := Step(s, Handles(id));
            id in s'.channels && Settled(s'.channels[id], c) == Settled(s.channels[id], c)
  {
    var ch := s.channels[id];
    var popped := s.(channels := s.channels[id := ch.(queue := ch.queue[1..])]);
    assert Handled(popped, id, ch.queue[0]).channels[id].queue == ch.queue[1..];
  }

  lemma OthersUntouched(s: State, ev: Event, id: ChannelId)
    requires id in Step(s, ev).channels && id in s.channels && ((ev.Posts? || ev.Handles?) ==> ev.id != id)
    ensures Step(s, ev).channels[id] == s.channels[id]
  {
  }

  lemma StepConverges(s: State, ev: Event, c: Conn, wanted: map<ChannelId, nat>)
    requires Agree(s, c) && c !in s.closing && Converges(s, c, wanted) && Leaves(ev, c)
    ensures var s' := Step(s, ev); Agree(s', c) && c !in s'.closing && Converges(s', c, wanted)
  {
    var s' := Step(s, ev);
    StepKeepsAgreement(s, ev, c);
    forall id | id in s'.channels
      ensures id in s.channels && Settled(s'.channels[id], c) == Settled(s.channels[id], c)
    {
      if (ev.Posts? || ev.Handles?) && ev.id == id {
        if ev.Posts? {
          AfterSnoc(s.channels[id].queue, ev.t, c, Current(s.channels[id], c));
        } else if s.channels[id].queue != [] {
          HandlingSettles(s, id, c);
        }
      } else {
        OthersUntouched(s, ev, id);
      }
    }
    hide Step, Settled, Agree;
  }

  lemma {:induction false} EveryRunConverges(s: State, events: seq<Event>, c: Conn, wanted: map<ChannelId, nat>,
                                             end: State)
    requires Agree(s, c) && c !in s.closing && Converges(s, c, wanted) && Run(s, events, c, end)
    ensures Agree(end, c) && Converges(end, c, wanted)
    decreases |events|
  {
    hide Agree, Converges, Step;
    if events != [] {
      StepConverges(s, events[0], c, wanted);
      EveryRunConverges(Step(s, events[0]), events[1..], c, wanted, end);
    }
  }

  /**
   Where an update leads to what its query asks for: whatever order the channels then handle their
   queues in, once no message of the client is queued, its spatialSubscriptions on live channels
   are those the query asked for, each at the interval damped by its distance.
   */
  lemma InterestFollowsTheQuery(s: State, here: ChannelId, c: Conn, answer: map<ChannelId, nat>, defaultMs: nat,
                                events: seq<Event>, end: State)
    requires Agree(s, c) && c !in s.closing && here in s.channels
    requires Awaits(s.channels[here], c) ==> Settled(s.channels[here], c) == Goal(Wanted(answer, defaultMs), here)
    requires forall id <- s.channels.Keys ::
               id != here && id !in Mine(s, c) && id !in answer ==> Settled(s.channels[id], c).None?
    requires Run(Updated(s, here, c, Wanted(answer, defaultMs)), events, c, end)
    requires forall id <- end.channels.Keys :: !Awaits(end.channels[id], c)
    ensures forall id <- end.channels.Keys :: id in Mine(end, c) <==> id in answer
    ensures forall id <- end.channels.Keys :: id in answer ==>
              Current(end.channels[id], c) == Some(DampedInterval(answer[id], defaultMs))
  {
    var wanted := Wanted(answer, defaultMs);
    UpdateConvergesIff(s, here, c, wanted);
    UpdatedKeys(s, here, c, wanted);
    EveryRunConverges(Updated(s, here, c, wanted), events, c, wanted, end);
    forall id | id in end.channels ensures Settled(end.channels[id], c) == Current(end.channels[id], c) {
      AfterOthers(end.channels[id].queue, c, Current(end.channels[id], c));
    }
    hide Updated, Settled, DampedInterval;
  }

  // ---- owners ----

  /** Whoever owns a live channel and is open is subscribed to it. */
  ghost predicate OwnersAreIn(s: State) {
    forall id <- s.channels.Keys ::
      var owner := s.channels[id].owner;
      owner.Some? && owner.value !in s.closing ==> owner.value in s.channels[id].subs
  }

  /** An owner that leaves its channel gives it up, so that no owner is ever outside. */
  lemma {:induction false} OwnersStayIn(s: State, events: seq<Event>, c: Conn, end: State)
    requires OwnersAreIn(s) && Run(s, events, c, end)
    ensures OwnersAreIn(end)
    decreases |events|
  {
    if events != [] {
      StepKeepsOwnersIn(s, events[0]);
      OwnersStayIn(Step(s, events[0]), events[1..], c, end);
    }
  }

  lemma StepKeepsOwnersIn(s: State, ev: Event)
    requires OwnersAreIn(s)
    ensures OwnersAreIn(Step(s, ev))
  {
  }

  /** And gives up nothing else: a channel's owner changes only when it is itself the one to leave. */
  lemma OwnersChangeByLeaving(s: State, ev: Event, id: ChannelId)
    requires id in s.channels && id in Step(s, ev).channels
    requires Step(s, ev).channels[id].owner != s.channels[id].owner
    ensures ev == Handles(id) && s.channels[id].queue != [] && Step(s, ev).channels[id].owner == None
    ensures s.channels[id].owner.Some? && s.channels[id].queue[0] == Unsub(s.channels[id].owner.value)
  {
  }

  /** What an interest update does at once: the client gives up the current channel iff it leaves that. */
  lemma UpdateKeepsOwnersIn(s: State, here: ChannelId, c: Conn, wanted: map<ChannelId, nat>)
    requires OwnersAreIn(s) && here in s.channels
    ensures OwnersAreIn(Updated(s, here, c, wanted))
  {
    DispatchKeepsOwnersIn(s, here, UnsubTasks(s, c, wanted));
    DispatchKeepsOwnersIn(Dispatched(s, here, UnsubTasks(s, c, wanted)), here, SubTasks(s, c, wanted));
    hide Dispatched, OwnersAreIn;
  }

  lemma DispatchKeepsOwnersIn(s: State, here: ChannelId, tasks: map<ChannelId, Task>)
    requires OwnersAreIn(s)
    ensures OwnersAreIn(Dispatched(s, here, tasks))
  {
  }

  // ---- an example ----

  /** Client 7 is subscribed to channel 1; an earlier subscription to channel 2 is still queued there. */
  function SubscriptionQueued(): State {
    State(map[1 := Channel(map[7 := 20], [], None),
              2 := Channel(map[], [Sub(7, 20)], None),
              3 := Channel(map[], [], None)],
          map[7 := {1}], {})
  }

  /** Its next query names channel 3 alone; it will be in channel 2 as well. */
  lemma QueuedSubscriptionStays()
    ensures var (s, wanted) := (SubscriptionQueued(), map[3 := 20]);
            var s' := Updated(s, 1, 7, wanted);
            && Agree(s, 7) && Mine(s, 7) == {1}
            && !Converges(s', 7, wanted) && 2 in s'.channels && Settled(s'.channels[2], 7) == Some(20)
  {
    var s, wanted: map<ChannelId, nat> := SubscriptionQueued(), map[3 := 20];
    assert s.channels.Keys == {1, 2, 3};
    UpdateConvergesIff(s, 1, 7, wanted);
    UpdatedSettles(s, 1, 7, wanted, 2);
    assert Settled(s.channels[2], 7) == After([], 7, Some(20));
  }
}

/** The tables of one channel over every run: subscribing, closing, ticking and forgetting. */
module TableRuns {
  import opened Prelude
  import opened FanOut
  import opened Subscriptions

  /** The tables, with the connections that hold the channel in their spatialSubscriptions. */
  datatype Tables = Tables(ch: State, spatial: set<Conn>, isSpatial: bool, closing: set<Conn>, nextElement: nat)

  datatype Event =
    | Subscribes(conn: Conn, change: Option<OptionsChange>, now: Time, defaults: Options)
    | Unsubscribes(conn: Conn)
    | Closes(conn: Conn)
    | DataTick(t: Time)
    | ConnectionsTick

  ghost predicate Allowed(s: Tables, ev: Event) {
    ev.DataTick? && s.ch.msg.Some? ==> PositiveIntervals(s.ch, ev.t, s.closing)
  }

  ghost function Apply(s: Tables, ev: Event): Tables
    requires Allowed(s, ev)
  {
    match ev
    case Subscribes(conn, change, now, defaults) =>
      if conn in s.closing then s
      else s.(ch := Subscribed(s.ch, conn, change, now, defaults, s.nextElement),
              spatial := if s.isSpatial && conn !in s.ch.subs then s.spatial + {conn} else s.spatial,
              nextElement := s.nextElement + 1)
    case Unsubscribes(conn) =>
      s.(ch := Unsubscribed(s.ch, conn),
         spatial := if s.isSpatial && conn in s.ch.subs then s.spatial - {conn} else s.spatial)
    case Closes(conn) => s.(closing := s.closing + {conn})
    case DataTick(t) => s.(ch := Ticked(s.ch, t, s.closing))
    case ConnectionsTick => s.(ch := s.ch.(subs := s.ch.subs - s.closing))
  }

  ghost predicate Run(s: Tables, events: seq<Event>, end: Tables)
    decreases |events|
  {
    if events == [] then end == s
    else Allowed(s, events[0]) && Run(Apply(s, events[0]), events[1..], end)
  }

  ghost predicate Agree(s: Tables) {
    && ElementsMatch(s.ch, s.nextElement)
    && TablesAgree(s.ch, s.spatial, s.isSpatial, s.closing)
  }

  lemma SubscribeAgrees(s: Tables, ev: Event)
    requires Agree(s) && ev.Subscribes?
    ensures Agree(Apply(s, ev))
  {
    hide Subscribed, ElementsMatch;
    if ev.conn !in s.closing {
      SubscribedAgrees(s.ch, ev.conn, ev.change, ev.now, ev.defaults, s.nextElement, s.spatial, s.isSpatial, s.closing);
      assert ev.conn in s.ch.subs && s.isSpatial ==> s.spatial + {ev.conn} == s.spatial;
      ElementsGrow(Apply(s, ev).ch, s.nextElement);
    }
  }

  lemma ElementsGrow(s: State, next: nat)
    ensures ElementsMatch(s, next) ==> ElementsMatch(s, next + 1)
  {
  }

  lemma DataTickAgrees(s: Tables, ev: Event)
    requires Agree(s) && ev.DataTick? && Allowed(s, ev)
    ensures Agree(Apply(s, ev))
  {
    if s.ch.msg.Some? {
      var ch' := Ticked(s.ch, ev.t, s.closing);
      forall c | c in ch'.queue ensures ch'.queue[c].element == s.ch.queue[c].element {
        if Readable(s.ch, c, s.closing) {
          DrainedIsNotDue(s.ch.queue[c], s.ch.subs[c].options, s.ch, ev.t);
        }
      }
      hide TickedEntry, TickedMessages, ElementsMatch, TablesAgree;
      ForgettingAgrees(s.ch, ch', s.nextElement, s.spatial, s.isSpatial, s.closing);
    }
  }

  lemma {:induction false} EveryRunAgrees(s: Tables, events: seq<Event>, end: Tables)
    requires Agree(s) && Run(s, events, end)
    ensures Agree(end)
    decreases |events|
  {
    if events != [] {
      var ev := events[0];
      var s' := Apply(s, ev);
      if ev.Subscribes? {
        SubscribeAgrees(s, ev);
      } else if ev.DataTick? {
        DataTickAgrees(s, ev);
      } else if ev.Unsubscribes? {
        UnsubscribedAgrees(s.ch, ev.conn, s.nextElement, s.spatial, s.isSpatial, s.closing);
      } else if ev.Closes? {
        AgreementIsMonotone(s.ch, s.spatial, s.isSpatial, s.closing, s'.closing);
      } else {
        ForgettingAgrees(s.ch, s'.ch, s.nextElement, s.spatial, s.isSpatial, s.closing);
      }
      hide Apply, Agree;
      EveryRunAgrees(s', events[1..], end);
    }
  }

  /**
   From empty tables, in every run: an open connection is subscribed iff it has an entry in
   the fan-out queue, its subscription points at that entry, and, for a spatial channel, iff
   it holds the channel in its spatialSubscriptions.
   */
  lemma OpenConnectionsAgree(s: Tables, events: seq<Event>, end: Tables, c: Conn)
    requires s.ch.queue == map[] && s.ch.subs == map[] && s.spatial == {} && Run(s, events, end)
    requires c !in end.closing
    ensures c in end.ch.subs <==> c in end.ch.queue
    ensures c in end.ch.subs ==> end.ch.subs[c].element == end.ch.queue[c].element
    ensures c in end.spatial <==> end.isSpatial && c in end.ch.subs
  {
    EveryRunAgrees(s, events, end);
  }
}

/** Subscribing and unsubscribing, as values, and the agreement of a channel's tables. */
module Subscriptions {
  import opened Prelude
  import opened FanOut

  function MergeChange(o: Options, change: Option<OptionsChange>): Options {
    if change.Some? then MergeOptions(o, change.value) else o
  }

  /** An open connection subscribes, or changes the options it has. */
  function Subscribed(s: State, c: Conn, change: Option<OptionsChange>, now: Time, defaults: Options,
                      element: nat): State
  {
    if c in s.subs then
      s.(subs := s.subs[c := s.subs[c].(options := MergeChange(s.subs[c].options, change))])
    else
      var o := MergeChange(defaults, change);
      s.(subs := s.subs[c := Subscription(o, now, element)],
         queue := s.queue[c := Entry(c, element, o.skipFirst, AddMs(now, o.delayMs), 0)],
         maxIntervalMs := if s.initialized && s.maxIntervalMs < o.intervalMs then o.intervalMs else s.maxIntervalMs,
         sent := if c in s.sent then s.sent else s.sent[c := []])
  }

  function Unsubscribed(s: State, c: Conn): State {
    if c in s.subs then s.(subs := s.subs - {c}, queue := s.queue - {c}) else s
  }

  /** List elements are told apart: an entry is a subscription's element iff it is its connection's. */
  ghost predicate ElementsMatch(s: State, next: nat) {
    && (forall d <- s.queue.Keys :: s.queue[d].element < next)
    && (forall c <- s.subs.Keys :: s.subs[c].element < next)
    && (forall d <- s.queue.Keys, c <- s.subs.Keys :: d == c <==> s.queue[d].element == s.subs[c].element)
  }

  /**
   Every open subscriber has its entry in the queue, every entry is that of a subscriber or of
   a closing connection, and an open connection holds a spatial channel in its
   spatialSubscriptions iff the channel holds the connection.
   */
  ghost predicate TablesAgree(s: State, spatial: set<Conn>, isSpatial: bool, closing: set<Conn>) {
    && (forall c <- s.subs.Keys :: c !in closing ==> c in s.queue)
    && (forall c <- s.queue.Keys :: c in closing || c in s.subs)
    && (forall c: Conn :: c !in closing ==> (c in spatial <==> isSpatial && c in s.subs))
  }

  lemma AgreementIsMonotone(s: State, spatial: set<Conn>, isSpatial: bool, closing: set<Conn>, more: set<Conn>)
    requires TablesAgree(s, spatial, isSpatial, closing) && closing <= more
    ensures TablesAgree(s, spatial, isSpatial, more)
  {
  }

  lemma SubscribedElements(s: State, c: Conn, change: Option<OptionsChange>, now: Time, defaults: Options, next: nat)
    requires ElementsMatch(s, next)
    requires c in s.queue ==> c in s.subs
    ensures ElementsMatch(Subscribed(s, c, change, now, defaults, next), if c in s.subs then next else next + 1)
  {
    hide MergeOptions, MergeChange;
  }

  lemma SubscribedAgrees(s: State, c: Conn, change: Option<OptionsChange>, now: Time, defaults: Options, next: nat,
                         spatial: set<Conn>, isSpatial: bool, closing: set<Conn>)
    requires c !in closing
    requires ElementsMatch(s, next) && TablesAgree(s, spatial, isSpatial, closing)
    ensures var s' := Subscribed(s, c, change, now, defaults, next);
            && ElementsMatch(s', if c in s.subs then next else next + 1)
            && TablesAgree(s', if isSpatial then spatial + {c} else spatial, isSpatial, closing)
  {
    SubscribedElements(s, c, change, now, defaults, next);
    hide MergeOptions, MergeChange, ElementsMatch;
  }

  lemma UnsubscribedAgrees(s: State, c: Conn, next: nat, spatial: set<Conn>, isSpatial: bool, closing: set<Conn>)
    requires ElementsMatch(s, next) && TablesAgree(s, spatial, isSpatial, closing)
    ensures var s' := Unsubscribed(s, c);
            && ElementsMatch(s', next)
            && TablesAgree(s', if isSpatial && c in s.subs then spatial - {c} else spatial, isSpatial, closing)
  {
  }

  /** Closing connections may be forgotten at any time. */
  lemma ForgettingAgrees(s: State, s': State, next: nat, spatial: set<Conn>, isSpatial: bool, closing: set<Conn>)
    requires ElementsMatch(s, next) && TablesAgree(s, spatial, isSpatial, closing)
    requires s.queue.Keys - closing <= s'.queue.Keys <= s.queue.Keys
    requires s.subs.Keys - closing <= s'.subs.Keys <= s.subs.Keys
    requires forall d <- s'.queue.Keys :: s'.queue[d].element == s.queue[d].element
    requires forall c <- s'.subs.Keys :: s'.subs[c].element == s.subs[c].element
    ensures ElementsMatch(s', next)
    ensures TablesAgree(s', spatial, isSpatial, closing)
  {
  }

  /** Raising one's interval later leaves the channel's longest interval as it was. */
  lemma RaisedIntervalIsNotRecorded(s: State, c: Conn, sub: Subscription, now: Time, defaults: Options, element: nat)
    requires s.maxIntervalMs == 20 && c in s.subs && s.subs[c] == sub && sub.options.intervalMs == 20
    ensures var change := OptionsChange(None, [], Some(5000), None, None, None);
            var s' := Subscribed(s, c, Some(change), now, defaults, element);
            s'.subs[c].options.intervalMs == 5000 && s'.maxIntervalMs == 20
  {
  }
}

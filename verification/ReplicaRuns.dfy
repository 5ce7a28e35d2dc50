/** Every run of a channel: updates, ticks, subscriptions and forgotten connections, in any order. */
module ReplicaRuns {
  import opened Prelude
  import opened FanOut
  import opened Subscriptions
  import opened Windows
  import opened Feeds
  import opened Replication

  /**
   A channel with its history: the data it started from, all updates, for each subscriber those meant for it,
   the latest arrival and the latest tick. The connections that send updates are fixed for the run.
   */
  datatype System = System(
    ch: State,
    base: Message,
    log: seq<Update>,
    feeds: map<Conn, Feed>,
    clock: Time,
    ticked: Time,
    nextElement: nat,
    writers: set<Conn>)

  datatype Event =
    | DataStarts(data: Option<Message>)
    | UpdateArrives(msg: Message, t: Time, sender: Conn)
    | TickRuns(t: Time, closing: set<Conn>)
    | ConnSubscribes(conn: Conn, change: Option<OptionsChange>, now: Time, defaults: Options)
    | ConnUnsubscribes(conn: Conn)
    | ConnsForgotten(closing: set<Conn>)

  /**
   Updates come in the order of their times; no first fan-out filters fields out of the live data; a writer does not
   change whether it skips its own.
   */
  ghost predicate Allowed(sys: System, ev: Event) {
    match ev
    case DataStarts(msg) => !sys.ch.initialized
    case UpdateArrives(msg, t, sender) =>
      sys.ch.initialized && sender in sys.writers && 0 <= t && sys.clock <= t
    case TickRuns(t, closing) =>
      && sys.clock <= t && sys.ticked <= t
      && (sys.ch.msg.Some? ==> PositiveIntervals(sys.ch, t, closing) && HarmlessMasks(sys.ch, t, closing))
    case ConnSubscribes(conn, change, now, defaults) =>
      var o := Subscribed(sys.ch, conn, change, now, defaults, sys.nextElement).subs[conn].options;
      && (conn in sys.ch.queue ==> conn in sys.ch.subs)
      && (conn in sys.ch.subs && conn in sys.writers ==> o.skipSelf == sys.ch.subs[conn].options.skipSelf)
    case ConnUnsubscribes(conn) => true
    case ConnsForgotten(closing) => true
  }

  /** The update, or any other, is skipped for being the subscriber's own. */
  predicate Own(f: Feed, u: Update, c: Conn) {
    f.skipsOwn && u.sender == c
  }

  /** An update reaches the subscribers for which it is not late, and not their own. */
  function Reached(e: Entry, f: Feed, u: Update): (r: Feed)
    ensures r.(onTime := f.onTime, heard := f.heard) == f
  {
    if e.hadFirst && (Own(f, u, e.conn) || Late(e, u.arrivalTime)) then f else Arrived(f, u)
  }

  /** What leaves a full buffer for it is lost to fanned-out subscribers that have still to get it. */
  function FeedAfterUpdate(s: State, e: Entry, f: Feed, u: Update): (r: Feed)
    ensures r.(onTime := f.onTime, heard := f.heard) == f
  {
    var buffer := s.buffer + [u];
    if e.hadFirst && Trims(buffer, s.maxIntervalMs, u.arrivalTime) && !Own(f, buffer[0], e.conn) then
      Trimmed(Reached(e, f, u), |Heard(buffer, e.conn, f.skipsOwn)|, e.last)
    else Reached(e, f, u)
  }

  ghost function FeedsAfterUpdate(sys: System, u: Update): map<Conn, Feed> {
    map c | c in sys.feeds ::
      if c in sys.ch.queue then FeedAfterUpdate(sys.ch, sys.ch.queue[c], sys.feeds[c], u) else sys.feeds[c]
  }

  /** The subscribers that a tick serves are fanned out. */
  ghost function FeedsAfterTick(sys: System, t: Time, closing: set<Conn>): map<Conn, Feed>
    requires sys.ch.msg.Some?
  {
    map c | c in sys.feeds ::
      if c in sys.ch.queue && Readable(sys.ch, c, closing) && Due(sys.ch.queue[c], sys.ch.subs[c].options, t)
      then Served(sys.ch.queue[c], sys.ch, sys.feeds[c], t) else sys.feeds[c]
  }

  /** What has been sent to a connection so far, by this or earlier subscriptions. */
  function Replica(s: State, c: Conn): Message {
    Merged(if c in s.sent then s.sent[c] else [])
  }

  /** A new subscriber will be sent the whole data or, when that is skipped, what is buffered from its time on. */
  function NewFeed(sys: System, c: Conn, o: Options, last: Time): Feed {
    var recorded := if sys.ch.initialized then o.intervalMs else 0;
    var f := Feed(sys.base, sys.log, 0, o.skipSelf, o.skipFirst, o.masks, recorded);
    if o.skipFirst then Started(f, Replica(sys.ch, c), Heard(sys.ch.buffer, c, o.skipSelf), last) else f
  }

  /** Masks are only ever added, but the first ones take fields away. */
  function Narrowed(f: Feed, masks: seq<nat>): Feed {
    f.(masks := if f.masks == [] then masks else f.masks)
  }

  ghost function FeedsAfterSubscribing(sys: System, c: Conn, s': State): map<Conn, Feed>
    requires c in s'.subs && (c !in sys.ch.subs ==> c in s'.queue)
  {
    if c !in sys.ch.subs then sys.feeds[c := NewFeed(sys, c, s'.subs[c].options, s'.queue[c].last)]
    else if c in sys.feeds then sys.feeds[c := Narrowed(sys.feeds[c], s'.subs[c].options.masks)]
    else sys.feeds
  }

  /** With the data, all longest intervals are forgotten. */
  function Restarted(s: State, msg: Option<Message>): State {
    s.(initialized := true, msg := msg, msgIndex := 0, buffer := [], maxIntervalMs := 0)
  }

  ghost function FeedsAfterStart(sys: System, base: Message): map<Conn, Feed> {
    map c | c in sys.feeds ::
      sys.feeds[c].(intervalMs := 0,
                    start := if c in sys.ch.queue && !sys.ch.queue[c].hadFirst then base else sys.feeds[c].start)
  }

  ghost function Apply(sys: System, ev: Event): System
    requires Allowed(sys, ev)
  {
    match ev
    case DataStarts(msg) =>
      var base := if msg.Some? then msg.value else map[];
      sys.(ch := Restarted(sys.ch, msg), base := base, feeds := FeedsAfterStart(sys, base))
    case UpdateArrives(msg, t, sender) =>
      var u := Update(msg, t, sender, sys.ch.msgIndex + 1);
      sys.(ch := Updated(sys.ch, msg, t, sender), log := sys.log + [u], feeds := FeedsAfterUpdate(sys, u), clock := t)
    case TickRuns(t, closing) =>
      sys.(ch := Ticked(sys.ch, t, closing), ticked := t,
           feeds := if sys.ch.msg.Some? then FeedsAfterTick(sys, t, closing) else sys.feeds)
    case ConnSubscribes(conn, change, now, defaults) =>
      var s' := Subscribed(sys.ch, conn, change, now, defaults, sys.nextElement);
      sys.(ch := s', nextElement := sys.nextElement + 1, feeds := FeedsAfterSubscribing(sys, conn, s'))
    case ConnUnsubscribes(conn) => sys.(ch := Unsubscribed(sys.ch, conn))
    case ConnsForgotten(closing) => sys.(ch := sys.ch.(subs := sys.ch.subs - closing))
  }

  ghost predicate Run(sys: System, events: seq<Event>, end: System)
    decreases |events|
  {
    if events == [] then end == sys
    else Allowed(sys, events[0]) && Run(Apply(sys, events[0]), events[1..], end)
  }

  /** A new channel, with or without its data. */
  ghost predicate Initial(sys: System) {
    && sys.ch.queue == map[] && sys.ch.subs == map[] && sys.ch.sent == map[]
    && sys.ch.buffer == [] && sys.log == []
    && sys.base == (if sys.ch.msg.Some? then sys.ch.msg.value else map[])
    && (sys.ch.initialized || sys.ch.msg.None?)
  }

  // -------------------------------------------------------------- invariant

  ghost predicate LogInvariant(sys: System) {
    && OrderedLog(sys.log, sys.clock)
    && (forall u <- sys.log :: u.sender in sys.writers)
    && DataOf(sys.ch, sys.base, sys.log)
    && (sys.ch.initialized || (sys.ch.msg.None? && sys.log == []))
  }

  /** One subscriber: its options as the feed has them, and its replica. */
  ghost predicate FeedInvariant(sys: System, c: Conn)
    requires c in sys.ch.queue && c in sys.ch.sent && c in sys.feeds
  {
    var (e, f) := (sys.ch.queue[c], sys.feeds[c]);
    && e.conn == c
    && (c in sys.ch.subs ==>
          && Narrows(f.masks, sys.ch.subs[c].options.masks)
          && (c in sys.writers ==> sys.ch.subs[c].options.skipSelf == f.skipsOwn))
    && f.intervalMs <= sys.ch.maxIntervalMs
    && (!sys.ch.initialized && e.hadFirst ==> f.skipsFirst)
    && Converged(e, Merged(sys.ch.sent[c]), sys.ch, sys.base, sys.log, f)
  }

  ghost predicate ConnInvariant(sys: System, c: Conn) {
    && (c in sys.ch.queue ==> c in sys.ch.sent && c in sys.feeds && FeedInvariant(sys, c))
    && (c in sys.ch.sent ==> Merged(sys.ch.sent[c]).Keys <= Fields(sys.ch))
  }

  ghost predicate Invariant(sys: System) {
    LogInvariant(sys) && forall c: Conn :: ConnInvariant(sys, c)
  }

  // ---------------------------------------------------------------- updates

  lemma BuffersSnoc(buffer: seq<Update>, log: seq<Update>, u: Update)
    requires Buffers(buffer, log)
    ensures Buffers(buffer + [u], log + [u])
    ensures Buffers((buffer + [u])[1..], log + [u])
  {
    var k := |log| - |buffer|;
    FromSnoc(log, u, k);
    assert From(log + [u], k + 1) == (buffer + [u])[1..];
  }

  lemma OrderedSnoc(log: seq<Update>, u: Update, clock: Time)
    requires OrderedLog(log, clock) && 0 <= u.arrivalTime && clock <= u.arrivalTime
    ensures OrderedLog(log + [u], u.arrivalTime)
  {
    SortedSnoc(log, u);
  }

  lemma UpdatedBuffer(s: State, log: seq<Update>, msg: Message, t: Time, sender: Conn)
    requires Buffers(s.buffer, log)
    ensures Buffers(Updated(s, msg, t, sender).buffer, log + [Update(msg, t, sender, s.msgIndex + 1)])
  {
    BuffersSnoc(s.buffer, log, Update(msg, t, sender, s.msgIndex + 1));
    hide Buffers, Trims;
  }

  lemma UpdatedMessage(s: State, base: Message, log: seq<Update>, msg: Message, t: Time, sender: Conn)
    requires s.msg.None? ==> log == [] && base == map[]
    requires s.msg.Some? ==> s.msg.value == Fold(base, log)
    ensures Updated(s, msg, t, sender).msg == Some(Fold(base, log + [Update(msg, t, sender, s.msgIndex + 1)]))
  {
    hide Fold, Trims;
    FoldSnoc(base, log, Update(msg, t, sender, s.msgIndex + 1));
    if s.msg.None? {
      FoldNothing(base);
      assert map[] + msg == msg;
    }
  }

  lemma UpdatedData(s: State, base: Message, log: seq<Update>, msg: Message, t: Time, sender: Conn)
    requires DataOf(s, base, log)
    ensures DataOf(Updated(s, msg, t, sender), base, log + [Update(msg, t, sender, s.msgIndex + 1)])
  {
    hide Fold, Buffers, Updated;
    UpdatedRest(s, msg, t, sender);
    UpdatedBuffer(s, log, msg, t, sender);
    UpdatedMessage(s, base, log, msg, t, sender);
  }

  lemma UpdateKeepsLog(sys: System, msg: Message, t: Time, sender: Conn)
    requires LogInvariant(sys) && Allowed(sys, UpdateArrives(msg, t, sender))
    ensures LogInvariant(Apply(sys, UpdateArrives(msg, t, sender)))
  {
    hide OrderedLog, DataOf, Updated;
    var u := Update(msg, t, sender, sys.ch.msgIndex + 1);
    OrderedSnoc(sys.log, u, sys.clock);
    UpdatedRest(sys.ch, msg, t, sender);
    UpdatedData(sys.ch, sys.base, sys.log, msg, t, sender);
  }

  /** What the subscriber gets at all of the buffer, with the update and after trimming. */
  lemma HeardSnoc(buffer: seq<Update>, u: Update, conn: Conn, skipsOwn: bool)
    ensures var us := Heard(buffer, conn, skipsOwn);
            Heard(buffer + [u], conn, skipsOwn) == if skipsOwn && u.sender == conn then us else us + [u]
  {
    OthersConcat(buffer, [u], conn);
    assert [u][1..] == [];
  }

  lemma HeardRest(buffer: seq<Update>, conn: Conn, skipsOwn: bool)
    requires buffer != []
    ensures var us := Heard(buffer, conn, skipsOwn);
            if skipsOwn && buffer[0].sender == conn then Heard(buffer[1..], conn, skipsOwn) == us
            else us != [] && us[0] == buffer[0] && Heard(buffer[1..], conn, skipsOwn) == us[1..]
  {
  }

  /** A fanned-out subscriber, when an update arrives. */
  lemma ArrivingAligns(e: Entry, buffer: seq<Update>, log: seq<Update>, f: Feed, clock: Time, u: Update)
    requires e.hadFirst && OrderedLog(log, clock) && clock <= u.arrivalTime
    requires (forall v <- buffer :: v in log) && (forall v <- f.onTime :: v in log)
    requires Aligned(Heard(buffer, e.conn, f.skipsOwn), f, e.last)
    ensures var f' := Reached(e, f, u);
            && Aligned(Heard(buffer + [u], e.conn, f.skipsOwn), f', e.last)
            && Seen(f', e.last) == Seen(f, e.last)
            && f'.onTime[..Seen(f', e.last)] == f.onTime[..Seen(f, e.last)]
            && forall v <- f'.onTime :: v in f.onTime || (v == u && !Own(f, u, e.conn))
  {
    var us := Heard(buffer, e.conn, f.skipsOwn);
    NoneIsNewer(buffer, log, clock, u, e.conn, f.skipsOwn);
    hide Heard, Aligned, Sorted, Seen, OrderedLog;
    HeardSnoc(buffer, u, e.conn, f.skipsOwn);
    if !Own(f, u, e.conn) {
      if Late(e, u.arrivalTime) {
        LateAligns(us, f, e.last, u);
      } else {
        ArrivalAligns(us, f, e.last, u);
        assert (f.onTime + [u])[..Seen(f, e.last)] == f.onTime[..Seen(f, e.last)];
      }
    }
  }

  lemma NoneIsNewer(buffer: seq<Update>, log: seq<Update>, clock: Time, u: Update, conn: Conn, skipsOwn: bool)
    requires OrderedLog(log, clock) && clock <= u.arrivalTime && forall v <- buffer :: v in log
    ensures forall v <- Heard(buffer, conn, skipsOwn) :: v.arrivalTime <= u.arrivalTime
    ensures forall v <- log :: v.arrivalTime <= u.arrivalTime
  {
    OthersAre(buffer, conn);
  }

  /** And when the buffer is trimmed for it. */
  lemma UpdatedAligns(e: Entry, s: State, log: seq<Update>, f: Feed, clock: Time, msg: Message, t: Time, sender: Conn)
    requires e.hadFirst && Buffers(s.buffer, log) && OrderedLog(log, clock) && clock <= t && 0 <= t
    requires (forall v <- f.onTime :: v in log) && Aligned(Heard(s.buffer, e.conn, f.skipsOwn), f, e.last)
    ensures var u := Update(msg, t, sender, s.msgIndex + 1);
            var f' := FeedAfterUpdate(s, e, f, u);
            && Aligned(Heard(Updated(s, msg, t, sender).buffer, e.conn, f.skipsOwn), f', e.last)
            && Seen(f', e.last) == Seen(f, e.last)
            && f'.onTime[..Seen(f', e.last)] == f.onTime[..Seen(f, e.last)]
            && forall v <- f'.onTime :: v in f.onTime || (v == u && !Own(f, u, e.conn))
  {
    hide Heard, Aligned, Sorted, Seen, OrderedLog, Buffers, Trimmed, Reached, Trims;
    var u := Update(msg, t, sender, s.msgIndex + 1);
    HeardIsSorted(s.buffer, log, clock, u, e.conn, f.skipsOwn);
    ArrivingAligns(e, s.buffer, log, f, clock, u);
    TrimmingAligns(e, s.buffer + [u], Reached(e, f, u));
  }

  lemma HeardIsSorted(buffer: seq<Update>, log: seq<Update>, clock: Time, u: Update, conn: Conn, skipsOwn: bool)
    requires Buffers(buffer, log) && OrderedLog(log, clock) && clock <= u.arrivalTime && 0 <= u.arrivalTime
    ensures (forall v <- buffer :: v in log) && Sorted(Heard(buffer + [u], conn, skipsOwn))
  {
    BufferOfLog(buffer, log, clock);
    OrderedSnoc(buffer, u, clock);
    HeardIsOrdered(buffer + [u], conn, skipsOwn, u.arrivalTime);
    hide Heard, Buffers;
  }

  lemma TrimmingAligns(e: Entry, buffer: seq<Update>, f: Feed)
    requires buffer != []
    requires Sorted(Heard(buffer, e.conn, f.skipsOwn)) && Aligned(Heard(buffer, e.conn, f.skipsOwn), f, e.last)
    ensures var f' := if Own(f, buffer[0], e.conn) then f else Trimmed(f, |Heard(buffer, e.conn, f.skipsOwn)|, e.last);
            && Aligned(Heard(buffer[1..], e.conn, f.skipsOwn), f', e.last)
            && Seen(f', e.last) == Seen(f, e.last)
            && f'.onTime[..Seen(f', e.last)] == f.onTime[..Seen(f, e.last)]
            && forall v <- f'.onTime :: v in f.onTime
  {
    HeardRest(buffer, e.conn, f.skipsOwn);
    hide Heard, Aligned, Sorted, Seen, Trimmed;
    if !Own(f, buffer[0], e.conn) {
      TrimAligns(Heard(buffer, e.conn, f.skipsOwn), f, e.last);
    }
  }

  lemma UpdatedConverged(e: Entry, replica: Message, s: State, base: Message, log: seq<Update>, f: Feed, clock: Time,
                         msg: Message, t: Time, sender: Conn)
    requires DataOf(s, base, log) && OrderedLog(log, clock) && clock <= t && 0 <= t
    requires Converged(e, replica, s, base, log, f)
    ensures var u := Update(msg, t, sender, s.msgIndex + 1);
            Converged(e, replica, Updated(s, msg, t, sender), base, log + [u], FeedAfterUpdate(s, e, f, u))
  {
    hide Cut, Sorted, Fold, Buffers, Trims, Seen, Aligned, OrderedLog, Heard, ReplicaAt, LastOf, SameFields,
         FeedAfterUpdate;
    UpdatedRest(s, msg, t, sender);
    var f' := FeedAfterUpdate(s, e, f, Update(msg, t, sender, s.msgIndex + 1));
    if e.hadFirst {
      UpdatedAligns(e, s, log, f, clock, msg, t, sender);
      SameFront(f, f', Seen(f, e.last));
    } else {
      assert f' == Arrived(f, Update(msg, t, sender, s.msgIndex + 1)) by { WaitingFeed(s, e, f, msg, t, sender); }
    }
    hide Updated;
  }

  lemma WaitingFeed(s: State, e: Entry, f: Feed, msg: Message, t: Time, sender: Conn)
    requires !e.hadFirst
    ensures var u := Update(msg, t, sender, s.msgIndex + 1); FeedAfterUpdate(s, e, f, u) == Arrived(f, u)
  {
  }

  lemma UpdatedRest(s: State, msg: Message, t: Time, sender: Conn)
    ensures var s' := Updated(s, msg, t, sender);
            && s'.queue == s.queue && s'.subs == s.subs && s'.sent == s.sent
            && s'.initialized == s.initialized && s'.maxIntervalMs == s.maxIntervalMs && s'.msgIndex == s.msgIndex + 1
            && s'.msg.Some? && Fields(s) <= Fields(s')
  {
  }

  lemma UpdateKeepsConn(sys: System, msg: Message, t: Time, sender: Conn, c: Conn)
    requires LogInvariant(sys) && ConnInvariant(sys, c) && Allowed(sys, UpdateArrives(msg, t, sender))
    ensures ConnInvariant(Apply(sys, UpdateArrives(msg, t, sender)), c)
  {
    hide Merged, Updated, DataOf, Converged, Narrows, FeedAfterUpdate;
    UpdatedRest(sys.ch, msg, t, sender);
    if c in sys.ch.queue {
      UpdatedConverged(sys.ch.queue[c], Merged(sys.ch.sent[c]), sys.ch, sys.base, sys.log, sys.feeds[c], sys.clock,
                       msg, t, sender);
    }
  }

  // ------------------------------------------------------------------ ticks

  /** Merging some of the updates of a log sets no field that merging the log does not set. */
  lemma {:induction false} FoldKeysOfPart(start: Message, us: seq<Update>, base: Message, log: seq<Update>,
                                          fields: set<nat>)
    requires start.Keys <= fields && (forall u <- us :: u in log)
    requires log != [] ==> fields == Fold(base, log).Keys
    ensures Fold(start, us).Keys <= fields
  {
    if us != [] {
      FoldKeysOfPart(start, us[..|us| - 1], base, log, fields);
      assert us[|us| - 1] in log;
      FoldKeys(base, log, us[|us| - 1]);
    }
  }

  /** A reader's replica after its own loop. */
  lemma ReaderKeepsConverged(sys: System, t: Time, closing: set<Conn>, c: Conn)
    requires LogInvariant(sys) && ConnInvariant(sys, c) && Allowed(sys, TickRuns(t, closing))
    requires sys.ch.msg.Some? && c in sys.ch.queue && Readable(sys.ch, c, closing)
    ensures var (e, o, f) := (sys.ch.queue[c], sys.ch.subs[c].options, sys.feeds[c]);
            Converged(DrainedEntry(e, o, sys.ch, t), Merged(sys.ch.sent[c] + DrainedMessages(e, o, sys.ch, t)), sys.ch,
                      sys.base, sys.log, if Due(e, o, t) then Served(e, sys.ch, f, t) else f)
  {
    var (e, o, f) := (sys.ch.queue[c], sys.ch.subs[c].options, sys.feeds[c]);
    assert OrderedLog(sys.log, t) && SameHearing(o, f, c, sys.log);
    hide Merged, Converged, Buffers, OrderedLog, DrainedEntry, DrainedMessages, Narrows, SameHearing, Served, Filter;
    DrainConverges(e, o, sys.ch, t, sys.base, sys.log, f, sys.ch.sent[c]);
  }

  /** What a tick makes of a reader. */
  lemma ReaderAfterTick(sys: System, t: Time, closing: set<Conn>, c: Conn)
    requires Allowed(sys, TickRuns(t, closing)) && sys.ch.msg.Some? && c in sys.ch.queue && Readable(sys.ch, c, closing)
    requires c in sys.ch.sent && c in sys.feeds && sys.ch.queue[c].conn == c
    ensures var (e, o, s') := (sys.ch.queue[c], sys.ch.subs[c].options, Apply(sys, TickRuns(t, closing)).ch);
            && c in s'.queue && s'.queue[c] == DrainedEntry(e, o, sys.ch, t) && s'.queue[c].conn == c
            && c in s'.sent && s'.sent[c] == sys.ch.sent[c] + DrainedMessages(e, o, sys.ch, t)
            && s'.subs == sys.ch.subs && s'.msg == sys.ch.msg && s'.buffer == sys.ch.buffer
            && s'.initialized == sys.ch.initialized && s'.maxIntervalMs == sys.ch.maxIntervalMs
            && c in Apply(sys, TickRuns(t, closing)).feeds
            && Apply(sys, TickRuns(t, closing)).feeds[c] ==
                 if Due(e, o, t) then Served(e, sys.ch, sys.feeds[c], t) else sys.feeds[c]
  {
    DrainedIsNotDue(sys.ch.queue[c], sys.ch.subs[c].options, sys.ch, t);
    hide DrainedEntry, DrainedMessages, Served;
  }

  lemma TickKeepsConn(sys: System, t: Time, closing: set<Conn>, c: Conn)
    requires LogInvariant(sys) && ConnInvariant(sys, c) && Allowed(sys, TickRuns(t, closing))
    requires sys.ch.msg.Some?
    ensures ConnInvariant(Apply(sys, TickRuns(t, closing)), c)
  {
    var s := sys.ch;
    if c in s.queue && Readable(s, c, closing) {
      var e, o, f := s.queue[c], s.subs[c].options, sys.feeds[c];
      ReaderAfterTick(sys, t, closing, c);
      ReaderKeepsConverged(sys, t, closing, c);
      hide Merged, Converged, DrainedEntry, DrainedMessages, Narrows, LogInvariant, Ticked;
      ConvergedFrame(DrainedEntry(e, o, s, t), Merged(s.sent[c] + DrainedMessages(e, o, s, t)), s,
                     Ticked(s, t, closing), sys.base, sys.log, if Due(e, o, t) then Served(e, s, f, t) else f);
      hide Served, FeedsAfterTick;
    } else {
      OtherKeepsConn(sys, t, closing, c);
    }
  }

  lemma OtherKeepsConn(sys: System, t: Time, closing: set<Conn>, c: Conn)
    requires ConnInvariant(sys, c) && Allowed(sys, TickRuns(t, closing)) && sys.ch.msg.Some?
    requires c in sys.ch.queue ==> !Readable(sys.ch, c, closing)
    ensures ConnInvariant(Apply(sys, TickRuns(t, closing)), c)
  {
    hide Merged, Narrows;
    if c in sys.ch.sent {
      assert sys.ch.sent[c] + [] == sys.ch.sent[c];
    }
  }

  lemma ConvergedFrame(e: Entry, replica: Message, s: State, s': State, base: Message, log: seq<Update>, f: Feed)
    requires Converged(e, replica, s, base, log, f) && s'.msg == s.msg && s'.buffer == s.buffer
    ensures Converged(e, replica, s', base, log, f)
  {
  }

  lemma TickKeeps(sys: System, t: Time, closing: set<Conn>)
    requires Invariant(sys) && Allowed(sys, TickRuns(t, closing))
    ensures Invariant(Apply(sys, TickRuns(t, closing)))
  {
    hide OrderedLog, DataOf, Buffers, ConnInvariant;
    var sys' := Apply(sys, TickRuns(t, closing));
    SameData(sys.ch, sys'.ch, sys.base, sys.log);
    forall c: Conn ensures ConnInvariant(sys', c) {
      if sys.ch.msg.Some? {
        TickKeepsConn(sys, t, closing, c);
      } else {
        IdleTickKeepsConn(sys, t, closing, c);
      }
    }
  }

  lemma IdleTickKeepsConn(sys: System, t: Time, closing: set<Conn>, c: Conn)
    requires ConnInvariant(sys, c) && Allowed(sys, TickRuns(t, closing)) && sys.ch.msg.None?
    ensures ConnInvariant(Apply(sys, TickRuns(t, closing)), c)
  {
    hide Merged, Converged;
  }

  lemma SameData(s: State, s': State, base: Message, log: seq<Update>)
    requires DataOf(s, base, log) && s'.msg == s.msg && s'.buffer == s.buffer && s'.msgIndex == s.msgIndex
    ensures DataOf(s', base, log)
  {
  }

  // ---------------------------------------------------------- subscriptions

  lemma SubscribeKeepsConn(sys: System, conn: Conn, change: Option<OptionsChange>, now: Time, defaults: Options,
                           c: Conn)
    requires LogInvariant(sys) && ConnInvariant(sys, c) && Allowed(sys, ConnSubscribes(conn, change, now, defaults))
    ensures ConnInvariant(Apply(sys, ConnSubscribes(conn, change, now, defaults)), c)
  {
    hide Merged, MergeChange, Narrows, Narrowed, NewFeed, OrderedLog, DataOf, Converged;
    var s' := Apply(sys, ConnSubscribes(conn, change, now, defaults)).ch;
    MergedNothing();
    if c == conn && c !in sys.ch.subs {
      NewFeedConverges(sys, s'.queue[c], s'.subs[c].options);
      ConvergedFrame(s'.queue[c], Merged(s'.sent[c]), sys.ch, s', sys.base, sys.log,
                     NewFeed(sys, c, s'.subs[c].options, s'.queue[c].last));
    } else if c in sys.ch.queue {
      ConvergedFrame(sys.ch.queue[c], Merged(sys.ch.sent[c]), sys.ch, s', sys.base, sys.log, sys.feeds[c]);
      if c == conn {
        MergedMasks(sys.feeds[c], sys.ch.subs[c].options, change);
        NarrowedConverges(sys.ch.queue[c], Merged(sys.ch.sent[c]), s', sys.base, sys.log, sys.feeds[c],
                          s'.subs[c].options.masks);
      }
    }
  }

  lemma MergedMasks(f: Feed, o: Options, change: Option<OptionsChange>)
    requires Narrows(f.masks, o.masks)
    ensures Narrows(Narrowed(f, MergeChange(o, change).masks).masks, MergeChange(o, change).masks)
  {
  }

  lemma NarrowedConverges(e: Entry, replica: Message, s: State, base: Message, log: seq<Update>, f: Feed,
                          masks: seq<nat>)
    requires Converged(e, replica, s, base, log, f)
    ensures var f' := Narrowed(f, masks);
            && Converged(e, replica, s, base, log, f') && f'.skipsOwn == f.skipsOwn && f'.skipsFirst == f.skipsFirst
            && f'.intervalMs == f.intervalMs
  {
    var f' := Narrowed(f, masks);
    SameUpdates(Heard(s.buffer, e.conn, f.skipsOwn), f, f', e.last);
    hide ReplicaAt, LastOf, Heard, Seen, Aligned;
    if e.hadFirst {
      SameFront(f, f', Seen(f, e.last));
    }
  }

  lemma MergedNothing()
    ensures Merged([]) == map[]
  {
  }

  lemma NewFeedConverges(sys: System, e: Entry, o: Options)
    requires LogInvariant(sys) && e.hadFirst == o.skipFirst && Replica(sys.ch, e.conn).Keys <= Fields(sys.ch)
    ensures var f := NewFeed(sys, e.conn, o, e.last);
            && f.skipsOwn == o.skipSelf && f.skipsFirst == o.skipFirst && Narrows(f.masks, o.masks)
            && f.intervalMs == (if sys.ch.initialized then o.intervalMs else 0)
            && Converged(e, Replica(sys.ch, e.conn), sys.ch, sys.base, sys.log, f)
  {
    hide OrderedLog, Buffers, Fold, Aligned, Heard, Replica;
    if o.skipFirst {
      StartConverges(e, Replica(sys.ch, e.conn), sys.ch, sys.base, sys.log, sys.clock,
                     Feed(sys.base, sys.log, 0, o.skipSelf, o.skipFirst, o.masks,
                          if sys.ch.initialized then o.intervalMs else 0));
      hide Converged;
    }
  }

  // ------------------------------------------------------------ initialization

  lemma StartKeepsConn(sys: System, msg: Option<Message>, c: Conn)
    requires LogInvariant(sys) && ConnInvariant(sys, c) && Allowed(sys, DataStarts(msg))
    ensures ConnInvariant(Apply(sys, DataStarts(msg)), c)
  {
    hide Merged, Narrows, OrderedLog, Converged, Fold;
    if c in sys.ch.queue {
      RestartedConverges(sys.ch.queue[c], Merged(sys.ch.sent[c]), sys.ch, msg, sys.base, sys.feeds[c]);
    }
  }

  lemma RestartedConverges(e: Entry, replica: Message, s: State, data: Option<Message>, base: Message, f: Feed)
    requires Converged(e, replica, s, base, [], f) && s.msg.None? && s.buffer == [] && (e.hadFirst ==> f.skipsFirst)
    ensures var base' := if data.Some? then data.value else map[];
            Converged(e, replica, Restarted(s, data), base', [],
                      f.(intervalMs := 0, start := if e.hadFirst then f.start else base'))
  {
    var f' := f.(intervalMs := 0, start := if e.hadFirst then f.start else if data.Some? then data.value else map[]);
    SameUpdates(Heard(s.buffer, e.conn, f.skipsOwn), f, f', e.last);
    hide ReplicaAt, LastOf, Heard, Filter, Seen, Aligned;
    if e.hadFirst {
      SameFront(f, f', Seen(f, e.last));
    }
  }

  lemma StartKeeps(sys: System, msg: Option<Message>)
    requires Invariant(sys) && Allowed(sys, DataStarts(msg))
    ensures Invariant(Apply(sys, DataStarts(msg)))
  {
    hide ConnInvariant, OrderedLog;
    FoldNothing(Apply(sys, DataStarts(msg)).base);
    forall c: Conn ensures ConnInvariant(Apply(sys, DataStarts(msg)), c) {
      StartKeepsConn(sys, msg, c);
    }
  }

  lemma RestKeepsConn(sys: System, ev: Event, c: Conn)
    requires ConnInvariant(sys, c) && Allowed(sys, ev) && (ev.ConnUnsubscribes? || ev.ConnsForgotten?)
    ensures ConnInvariant(Apply(sys, ev), c)
  {
    hide Merged, Converged, Narrows;
    var s' := Apply(sys, ev).ch;
    if c in s'.queue {
      ConvergedFrame(sys.ch.queue[c], Merged(sys.ch.sent[c]), sys.ch, s', sys.base, sys.log, sys.feeds[c]);
    }
  }

  // ------------------------------------------------------------------- runs

  lemma UpdateKeeps(sys: System, msg: Message, t: Time, sender: Conn)
    requires Invariant(sys) && Allowed(sys, UpdateArrives(msg, t, sender))
    ensures Invariant(Apply(sys, UpdateArrives(msg, t, sender)))
  {
    UpdateKeepsLog(sys, msg, t, sender);
    hide LogInvariant, ConnInvariant, Allowed, Apply;
    forall c: Conn ensures ConnInvariant(Apply(sys, UpdateArrives(msg, t, sender)), c) {
      UpdateKeepsConn(sys, msg, t, sender, c);
    }
  }

  /** Subscriptions leave the data and its history alone. */
  lemma SubscriptionsKeepRest(sys: System, ev: Event)
    requires Allowed(sys, ev) && (ev.ConnSubscribes? || ev.ConnUnsubscribes? || ev.ConnsForgotten?)
    ensures var (sys', s, s') := (Apply(sys, ev), sys.ch, Apply(sys, ev).ch);
            && sys'.log == sys.log && sys'.base == sys.base && sys'.clock == sys.clock && sys'.writers == sys.writers
            && s'.msg == s.msg && s'.buffer == s.buffer && s'.msgIndex == s.msgIndex && s'.initialized == s.initialized
  {
    hide MergeChange, FeedsAfterSubscribing;
  }

  lemma SubscriptionsKeepLog(sys: System, ev: Event)
    requires LogInvariant(sys) && Allowed(sys, ev) && (ev.ConnSubscribes? || ev.ConnUnsubscribes? || ev.ConnsForgotten?)
    ensures LogInvariant(Apply(sys, ev))
  {
    SubscriptionsKeepRest(sys, ev);
    hide Apply, Allowed, DataOf, OrderedLog;
    SameData(sys.ch, Apply(sys, ev).ch, sys.base, sys.log);
  }

  lemma SubscribeKeeps(sys: System, conn: Conn, change: Option<OptionsChange>, now: Time, defaults: Options)
    requires Invariant(sys) && Allowed(sys, ConnSubscribes(conn, change, now, defaults))
    ensures Invariant(Apply(sys, ConnSubscribes(conn, change, now, defaults)))
  {
    hide LogInvariant, ConnInvariant, Allowed, Apply;
    var ev := ConnSubscribes(conn, change, now, defaults);
    SubscriptionsKeepLog(sys, ev);
    forall c: Conn ensures ConnInvariant(Apply(sys, ev), c) {
      SubscribeKeepsConn(sys, conn, change, now, defaults, c);
    }
  }

  lemma RestKeeps(sys: System, ev: Event)
    requires Invariant(sys) && Allowed(sys, ev) && (ev.ConnUnsubscribes? || ev.ConnsForgotten?)
    ensures Invariant(Apply(sys, ev))
  {
    hide LogInvariant, ConnInvariant, Allowed, Apply;
    SubscriptionsKeepLog(sys, ev);
    forall c: Conn ensures ConnInvariant(Apply(sys, ev), c) {
      RestKeepsConn(sys, ev, c);
    }
  }

  lemma StepKeeps(sys: System, ev: Event)
    requires Invariant(sys) && Allowed(sys, ev)
    ensures Invariant(Apply(sys, ev))
  {
    hide Invariant, Allowed, Apply;
    match ev
    case DataStarts(msg) => StartKeeps(sys, msg);
    case TickRuns(t, closing) => TickKeeps(sys, t, closing);
    case UpdateArrives(msg, t, sender) => UpdateKeeps(sys, msg, t, sender);
    case ConnSubscribes(conn, change, now, defaults) => SubscribeKeeps(sys, conn, change, now, defaults);
    case _ => RestKeeps(sys, ev);
  }

  lemma {:induction false} RunKeeps(sys: System, events: seq<Event>, end: System)
    requires Invariant(sys) && Run(sys, events, end)
    ensures Invariant(end)
    decreases |events|
  {
    hide Invariant, Allowed, Apply;
    if events != [] {
      StepKeeps(sys, events[0]);
      RunKeeps(Apply(sys, events[0]), events[1..], end);
    }
  }

  lemma InitialInvariant(sys: System)
    requires Initial(sys)
    ensures Invariant(sys)
  {
    FoldNothing(sys.base);
  }

  /**
   In every run, what has been sent to a fanned-out subscriber merges to what its replica started from with exactly
   the updates meant for it, up to its last fan-out: those with a time up to that of the fan-out that had arrived by
   then. A replica starts from the initial data, unless it leaves out updates or its first fan-out. With masks that
   is so for the fields that all its masks have named, and without for all.
   */
  lemma ReplicasConverge(start: System, events: seq<Event>, end: System, c: Conn)
    requires Initial(start) && Run(start, events, end)
    requires c in end.ch.queue && end.ch.queue[c].hadFirst
    ensures c in end.ch.sent && c in end.feeds
    ensures var f, last := end.feeds[c], end.ch.queue[c].last;
            var n := Seen(f, last);
            && Filter(Merged(end.ch.sent[c]), f.masks) == Filter(Fold(f.start, f.onTime[..n]), f.masks)
            && (f.masks == [] ==> Merged(end.ch.sent[c]) == Fold(f.start, f.onTime[..n]))
            && (!f.skipsOwn && !f.skipsFirst ==> f.start == end.base)
            && (f.skipsOwn ==> forall u <- f.onTime :: u.sender != c)
            && (n > 0 ==> end.ch.queue[c].lastIndex == f.onTime[n - 1].index)
            && forall i | 0 <= i < |f.onTime| :: f.onTime[i].arrivalTime <= last && i < f.heard <==> i < n
  {
    InitialInvariant(start);
    RunKeeps(start, events, end);
    assert ConnInvariant(end, c);
    CutSplits(end.feeds[c].onTime, end.ch.queue[c].last);
    hide Run, Merged, Fold, Narrows;
  }

  /** No update of the run has been late for the subscriber, lost to it or skipped. */
  ghost predicate NeverLate(sys: System, c: Conn) {
    c in sys.feeds && sys.feeds[c].onTime == sys.log
  }

  /** Then, once all with its last fan-out's time had arrived by that fan-out, it has all up to that time. */
  lemma PunctualReplicasConverge(start: System, events: seq<Event>, end: System, c: Conn)
    requires Initial(start) && Run(start, events, end)
    requires c in end.ch.queue && end.ch.queue[c].hadFirst && NeverLate(end, c)
    requires forall i | end.feeds[c].heard <= i < |end.log| :: end.ch.queue[c].last < end.log[i].arrivalTime
    ensures c in end.ch.sent
    ensures var n, f := Cut(end.log, end.ch.queue[c].last), end.feeds[c];
            && Filter(Merged(end.ch.sent[c]), f.masks) == Filter(Fold(f.start, end.log[..n]), f.masks)
            && (!f.skipsOwn && !f.skipsFirst ==> f.start == end.base)
            && forall i | 0 <= i < |end.log| :: end.log[i].arrivalTime <= end.ch.queue[c].last <==> i < n
  {
    ReplicasConverge(start, events, end, c);
    InitialInvariant(start);
    RunKeeps(start, events, end);
    CutSplits(end.log, end.ch.queue[c].last);
    hide Merged, Fold, Run, Sorted, Converged, Filter;
  }

  /**
   Right after a tick, a fanned-out reader has every update meant for it that is one interval old.
   */
  lemma FreshAfterTick(start: System, events: seq<Event>, before: System, t: Time, closing: set<Conn>, c: Conn)
    requires Initial(start) && Run(start, events, before)
    requires Allowed(before, TickRuns(t, closing)) && before.ch.msg.Some?
    requires var end := Apply(before, TickRuns(t, closing));
             c in end.ch.queue && end.ch.queue[c].hadFirst && Readable(end.ch, c, closing)
    ensures var end := Apply(before, TickRuns(t, closing));
            && c in end.ch.sent && c in end.feeds
            && var (f, n) := (end.feeds[c], Seen(end.feeds[c], end.ch.queue[c].last));
               && Filter(Merged(end.ch.sent[c]), f.masks) == Filter(Fold(f.start, f.onTime[..n]), f.masks)
               && forall i | 0 <= i < |f.onTime| ::
                    AddMs(f.onTime[i].arrivalTime, end.ch.subs[c].options.intervalMs) <= t ==> i < n
  {
    var end := Apply(before, TickRuns(t, closing));
    InitialInvariant(start);
    RunKeeps(start, events, before);
    DrainedIsNotDue(before.ch.queue[c], before.ch.subs[c].options, before.ch, t);
    TickKeeps(before, t, closing);
    assert ConnInvariant(before, c) && ConnInvariant(end, c);
    hide Converged, Merged, Ticked, Run, Invariant, Narrows, PositiveIntervals, HarmlessMasks, Filter;
    FreshReplica(end, c, t);
  }

  /** A replica of a subscriber that is not due. */
  lemma FreshReplica(sys: System, c: Conn, t: Time)
    requires ConnInvariant(sys, c) && c in sys.ch.queue && sys.ch.queue[c].hadFirst && c in sys.ch.subs
    requires !Due(sys.ch.queue[c], sys.ch.subs[c].options, t)
    ensures var (f, n) := (sys.feeds[c], Seen(sys.feeds[c], sys.ch.queue[c].last));
            && Filter(Merged(sys.ch.sent[c]), f.masks) == Filter(Fold(f.start, f.onTime[..n]), f.masks)
            && forall i | 0 <= i < |f.onTime| ::
                 AddMs(f.onTime[i].arrivalTime, sys.ch.subs[c].options.intervalMs) <= t ==> i < n
  {
    CutSplits(sys.feeds[c].onTime, sys.ch.queue[c].last);
    hide Cut, Sorted, Merged, Fold, EndsPending, Narrows, Filter;
  }

  // ---------------------------------------------------------------- trimming

  /** The update makes the buffer give up one that the subscriber has still to get. */
  ghost predicate Loses(sys: System, u: Update, c: Conn)
    requires c in sys.ch.queue && c in sys.feeds
  {
    var (e, f, buffer) := (sys.ch.queue[c], sys.feeds[c], sys.ch.buffer + [u]);
    && e.hadFirst && Trims(buffer, sys.ch.maxIntervalMs, u.arrivalTime) && !Own(f, buffer[0], c)
    && |Reached(e, f, u).onTime| - Seen(Reached(e, f, u), e.last) == |Heard(buffer, c, f.skipsOwn)|
  }

  /** Only then does anything leave its feed. */
  lemma KeptUnlessLost(sys: System, u: Update, c: Conn)
    requires c in sys.ch.queue && c in sys.feeds && sys.ch.queue[c].conn == c
    ensures FeedAfterUpdate(sys.ch, sys.ch.queue[c], sys.feeds[c], u) == Reached(sys.ch.queue[c], sys.feeds[c], u)
            <== !Loses(sys, u, c)
  {
  }

  /** No subscriber loses anything. */
  ghost predicate TrimsOnlySeen(sys: System, u: Update) {
    forall c <- sys.ch.queue.Keys :: c in sys.feeds ==> !Loses(sys, u, c)
  }

  /**
   In every run, an update makes a fanned-out subscriber lose the oldest one in the buffer iff that is given up, is
   not the subscriber's own, and is newer than its last fan-out, or as new and all that is buffered came after that.
   */
  lemma TrimmingLosesIff(start: System, events: seq<Event>, sys: System, msg: Message, t: Time, sender: Conn, c: Conn)
    requires Initial(start) && Run(start, events, sys) && Allowed(sys, UpdateArrives(msg, t, sender))
    requires c in sys.ch.queue && sys.ch.queue[c].hadFirst
    ensures c in sys.feeds
    ensures var u := Update(msg, t, sender, sys.ch.msgIndex + 1);
            var (f, last, buffer) := (sys.feeds[c], sys.ch.queue[c].last, sys.ch.buffer + [u]);
            Loses(sys, u, c) <==>
              && Trims(buffer, sys.ch.maxIntervalMs, t) && !Own(f, buffer[0], c)
              && (|| last < buffer[0].arrivalTime
                  || (last == buffer[0].arrivalTime
                      && f.heard + |Heard(buffer, c, f.skipsOwn)| <= |Reached(sys.ch.queue[c], f, u).onTime|))
  {
    InitialInvariant(start);
    RunKeeps(start, events, sys);
    assert ConnInvariant(sys, c);
    hide Run, Invariant;
    LosesIff(sys, Update(msg, t, sender, sys.ch.msgIndex + 1), c);
  }

  lemma LosesIff(sys: System, u: Update, c: Conn)
    requires LogInvariant(sys) && ConnInvariant(sys, c) && sys.clock <= u.arrivalTime && 0 <= u.arrivalTime
    requires c in sys.ch.queue && sys.ch.queue[c].hadFirst
    ensures var (f, last, buffer) := (sys.feeds[c], sys.ch.queue[c].last, sys.ch.buffer + [u]);
            Loses(sys, u, c) <==>
              && Trims(buffer, sys.ch.maxIntervalMs, u.arrivalTime) && !Own(f, buffer[0], c)
              && (|| last < buffer[0].arrivalTime
                  || (last == buffer[0].arrivalTime
                      && f.heard + |Heard(buffer, c, f.skipsOwn)| <= |Reached(sys.ch.queue[c], f, u).onTime|))
  {
    var (e, f, buffer) := (sys.ch.queue[c], sys.feeds[c], sys.ch.buffer + [u]);
    hide Heard, Aligned, Sorted, Seen, OrderedLog, Buffers, Merged, Fold, Narrows, SameFields;
    HeardIsSorted(sys.ch.buffer, sys.log, sys.clock, u, c, f.skipsOwn);
    ArrivingAligns(e, sys.ch.buffer, sys.log, f, sys.clock, u);
    HeardRest(buffer, c, f.skipsOwn);
    if !Own(f, buffer[0], c) {
      OldestIsUnsentIff(Heard(buffer, c, f.skipsOwn), Reached(e, f, u), e.last);
    }
  }

  /** Trimming takes nothing from a subscriber when none is later than the longest interval. */
  lemma PunctualTicksTrimOnlySeen(start: System, events: seq<Event>, sys: System, msg: Message, t: Time, sender: Conn)
    requires Initial(start) && Run(start, events, sys) && Allowed(sys, UpdateArrives(msg, t, sender))
    requires forall c <- sys.ch.queue.Keys :: sys.ch.queue[c].hadFirst ==>
               t <= AddMs(sys.ch.queue[c].last, sys.ch.maxIntervalMs)
    ensures TrimsOnlySeen(sys, Update(msg, t, sender, sys.ch.msgIndex + 1))
  {
    var u := Update(msg, t, sender, sys.ch.msgIndex + 1);
    forall c | c in sys.ch.queue && c in sys.feeds ensures !Loses(sys, u, c) {
      if sys.ch.queue[c].hadFirst {
        TrimmingLosesIff(start, events, sys, msg, t, sender, c);
      }
    }
    hide Run, Allowed, Initial;
  }

  /**
   The longest interval is not less than any that was asked for in subscribing to initialized data. So a subscriber
   that has not raised its interval since, and is no later than that, loses nothing.
   */
  lemma PunctualSubscribersLoseNothing(start: System, events: seq<Event>, sys: System, msg: Message, t: Time,
                                       sender: Conn, c: Conn)
    requires Initial(start) && Run(start, events, sys) && Allowed(sys, UpdateArrives(msg, t, sender))
    requires c in sys.ch.queue && c in sys.ch.subs && sys.ch.queue[c].hadFirst
    ensures c in sys.feeds && sys.feeds[c].intervalMs <= sys.ch.maxIntervalMs
    ensures var o := sys.ch.subs[c].options;
            o.intervalMs <= sys.feeds[c].intervalMs && t <= AddMs(sys.ch.queue[c].last, o.intervalMs) ==>
              !Loses(sys, Update(msg, t, sender, sys.ch.msgIndex + 1), c)
  {
    InitialInvariant(start);
    RunKeeps(start, events, sys);
    assert ConnInvariant(sys, c);
    hide Run, Allowed, Initial, Invariant, Merged, Converged, Narrows;
    TrimmingLosesIff(start, events, sys, msg, t, sender, c);
  }

  // --------------------------------------------------------- the buffer's size

  /**
   The buffer keeps the latest updates, as many as it is to hold; when it has more, it has been no longer than the
   updates were that once came within the longest interval.
   */
  ghost predicate Bounded(sys: System) {
    BoundedBy(|sys.ch.buffer|, sys.log, sys.ch.maxIntervalMs)
  }

  ghost predicate BoundedBy(n: nat, log: seq<Update>, intervalMs: nat) {
    && n <= |log| && (n == |log| || MAX_UPDATE_BUFFER_SIZE <= n)
    && (n <= MAX_UPDATE_BUFFER_SIZE || CameTogether(log, n, intervalMs))
  }

  /** Some `n` consecutive updates came within the interval. */
  ghost predicate CameTogether(log: seq<Update>, n: nat, intervalMs: nat) {
    0 < n <= |log| &&
    exists i :: 0 <= i <= |log| - n && log[i + n - 1].arrivalTime <= AddMs(log[i].arrivalTime, intervalMs)
  }

  lemma UpdateKeepsBounded(sys: System, msg: Message, t: Time, sender: Conn)
    requires Bounded(sys) && LogInvariant(sys) && Allowed(sys, UpdateArrives(msg, t, sender))
    ensures Bounded(Apply(sys, UpdateArrives(msg, t, sender)))
  {
    var u := Update(msg, t, sender, sys.ch.msgIndex + 1);
    assert Buffers(sys.ch.buffer, sys.log);
    UpdateIsApplied(sys, msg, t, sender);
    hide Apply, LogInvariant, CameTogether, Buffers, Trims, Updated, FeedsAfterUpdate, Allowed;
    UpdatedRest(sys.ch, msg, t, sender);
    UpdatedLength(sys.ch, msg, t, sender);
    KeptTogether(sys.ch.buffer, sys.log, u, sys.ch.maxIntervalMs);
    OneMoreBounded(|sys.ch.buffer|, sys.log, u, sys.ch.maxIntervalMs);
  }

  lemma UpdateIsApplied(sys: System, msg: Message, t: Time, sender: Conn)
    requires Allowed(sys, UpdateArrives(msg, t, sender))
    ensures var sys' := Apply(sys, UpdateArrives(msg, t, sender));
            && sys'.ch == Updated(sys.ch, msg, t, sender)
            && sys'.log == sys.log + [Update(msg, t, sender, sys.ch.msgIndex + 1)]
  {
    hide Updated, FeedsAfterUpdate;
  }

  lemma OneMoreBounded(n: nat, log: seq<Update>, u: Update, intervalMs: nat)
    requires BoundedBy(n, log, intervalMs)
    ensures MAX_UPDATE_BUFFER_SIZE <= n ==> BoundedBy(n, log + [u], intervalMs)
    ensures n < MAX_UPDATE_BUFFER_SIZE || CameTogether(log + [u], n + 1, intervalMs) ==>
              BoundedBy(n + 1, log + [u], intervalMs)
  {
    if n > MAX_UPDATE_BUFFER_SIZE {
      StillTogether(log, u, n, intervalMs);
    }
    hide CameTogether;
  }

  lemma UpdatedLength(s: State, msg: Message, t: Time, sender: Conn)
    ensures var trims := Trims(s.buffer + [Update(msg, t, sender, s.msgIndex + 1)], s.maxIntervalMs, t);
            && |Updated(s, msg, t, sender).buffer| == (if trims then |s.buffer| else |s.buffer| + 1)
            && (trims ==> MAX_UPDATE_BUFFER_SIZE <= |s.buffer|)
  {
  }

  /** What is kept although the buffer is full has come within the interval. */
  lemma KeptTogether(buffer: seq<Update>, log: seq<Update>, u: Update, intervalMs: nat)
    requires Buffers(buffer, log)
    ensures !Trims(buffer + [u], intervalMs, u.arrivalTime) && |buffer| >= MAX_UPDATE_BUFFER_SIZE ==>
              CameTogether(log + [u], |buffer| + 1, intervalMs)
  {
    var i := |log| - |buffer|;
    assert (log + [u])[i] == (buffer + [u])[0] && (log + [u])[i + |buffer|] == u;
  }

  lemma StillTogether(log: seq<Update>, u: Update, n: nat, intervalMs: nat)
    requires CameTogether(log, n, intervalMs)
    ensures CameTogether(log + [u], n, intervalMs)
  {
    var i :| 0 <= i <= |log| - n && log[i + n - 1].arrivalTime <= AddMs(log[i].arrivalTime, intervalMs);
    assert (log + [u])[i + n - 1] == log[i + n - 1] && (log + [u])[i] == log[i];
  }

  lemma OtherStepsKeepBounded(sys: System, ev: Event)
    requires Bounded(sys) && LogInvariant(sys) && Allowed(sys, ev) && !ev.UpdateArrives?
    ensures Bounded(Apply(sys, ev))
  {
    hide CameTogether, OrderedLog, HarmlessMasks, PositiveIntervals, MergeChange;
    if CameTogether(sys.log, |sys.ch.buffer|, sys.ch.maxIntervalMs) {
      TogetherWithin(sys.log, |sys.ch.buffer|, sys.ch.maxIntervalMs, Apply(sys, ev).ch.maxIntervalMs);
    }
  }

  lemma TogetherWithin(log: seq<Update>, n: nat, intervalMs: nat, longer: nat)
    requires CameTogether(log, n, intervalMs)
    ensures intervalMs <= longer ==> CameTogether(log, n, longer)
  {
  }

  /** In every run the buffer is bounded, by its size or by how fast updates come. */
  lemma {:induction false} EveryBufferIsBounded(sys: System, events: seq<Event>, end: System)
    requires Invariant(sys) && Bounded(sys) && Run(sys, events, end)
    ensures Bounded(end)
    decreases |events|
  {
    hide Bounded, Allowed, Apply, LogInvariant, ConnInvariant;
    if events != [] {
      StepKeeps(sys, events[0]);
      var ev := events[0];
      if ev.UpdateArrives? {
        UpdateKeepsBounded(sys, ev.msg, ev.t, ev.sender);
      } else {
        OtherStepsKeepBounded(sys, ev);
      }
      EveryBufferIsBounded(Apply(sys, events[0]), events[1..], end);
    }
  }

  lemma BufferIsBounded(start: System, events: seq<Event>, end: System)
    requires Initial(start) && Run(start, events, end)
    ensures Bounded(end)
  {
    InitialInvariant(start);
    hide Run, Invariant;
    EveryBufferIsBounded(start, events, end);
  }

  /** Masks are harmless to the live data iff every due newcomer has none, or names all fields there are. */
  lemma MasksAreHarmlessIff(s: State, t: Time, closing: set<Conn>)
    requires s.msg.Some?
    ensures HarmlessMasks(s, t, closing) <==>
            forall c <- s.queue.Keys ::
              Readable(s, c, closing) && !s.queue[c].hadFirst && Due(s.queue[c], s.subs[c].options, t) ==>
                s.subs[c].options.masks == [] || forall k <- s.msg.value.Keys :: k in s.subs[c].options.masks
  {
    forall c | c in s.queue && Readable(s, c, closing)
      ensures Filter(s.msg.value, s.subs[c].options.masks) == s.msg.value <==>
              s.subs[c].options.masks == [] || forall k <- s.msg.value.Keys :: k in s.subs[c].options.masks
    {
      FilterIsIdentityIff(s.msg.value, s.subs[c].options.masks);
    }
    hide Filter;
  }
}

/**
 Channel data and its fan-out, as values: what one update does to the buffer, which updates
 one fan-out window selects, and what one subscriber is sent when it is looked at on its own.
 A message is the map of the fields that are set in it; merging overrides field by field.
 */
module FanOut {
  import opened Prelude

  type Conn = nat   // a connection, by identity
  type Time = int   // nanoseconds since the channel was created

  type Message = map<nat, int>

  function AddMs(t: Time, ms: int): Time {
    t + ms * 1_000_000
  }

  /** The fields named by the masks; no masks keep everything. */
  function Filter(m: Message, masks: seq<nat>): Message {
    if masks == [] then m else map k | k in m && k in masks :: m[k]
  }

  lemma FilterIsIdentityIff(m: Message, masks: seq<nat>)
    ensures Filter(m, masks) == m <==> masks == [] || forall k <- m.Keys :: k in masks
  {
    if masks != [] && Filter(m, masks) == m {
      forall k | k in m.Keys ensures k in masks {
        assert k in Filter(m, masks);
      }
    }
  }

  // ------------------------------------------------------------------ updates

  datatype Update = Update(msg: Message, arrivalTime: Time, sender: Conn, index: nat)

  /** Merges the updates into `base`, one after the other. */
  function Fold(base: Message, us: seq<Update>): Message {
    if us == [] then base else Fold(base, us[..|us| - 1]) + us[|us| - 1].msg
  }

  lemma FoldSnoc(base: Message, us: seq<Update>, u: Update)
    ensures Fold(base, us + [u]) == Fold(base, us) + u.msg
  {
    assert (us + [u])[..|us|] == us;
  }

  const MAX_UPDATE_BUFFER_SIZE := 512

  predicate Trims(buffer: seq<Update>, maxIntervalMs: nat, t: Time) {
    |buffer| > MAX_UPDATE_BUFFER_SIZE && AddMs(buffer[0].arrivalTime, maxIntervalMs) < t
  }

  // ------------------------------------------------------------ subscriptions

  datatype Access = NO_ACCESS | READ_ACCESS | WRITE_ACCESS

  datatype Options = Options(
    access: Access,
    masks: seq<nat>,
    intervalMs: nat,
    delayMs: int,
    skipSelf: bool,
    skipFirst: bool)

  /** The options of a request; what is absent keeps its value, masks are appended. */
  datatype OptionsChange = OptionsChange(
    access: Option<Access>,
    masks: seq<nat>,
    intervalMs: Option<nat>,
    delayMs: Option<int>,
    skipSelf: Option<bool>,
    skipFirst: Option<bool>)

  function Override<T>(o: Option<T>, current: T): T {
    if o.Some? then o.value else current
  }

  function MergeOptions(o: Options, change: OptionsChange): Options {
    Options(
      Override(change.access, o.access),
      o.masks + change.masks,
      Override(change.intervalMs, o.intervalMs),
      Override(change.delayMs, o.delayMs),
      Override(change.skipSelf, o.skipSelf),
      Override(change.skipFirst, o.skipFirst))
  }

  /** A request without anything changes nothing. */
  lemma EmptyRequest(o: Options)
    ensures MergeOptions(o, OptionsChange(None, [], None, None, None, None)) == o
  {
    assert o.masks + [] == o.masks;
  }

  /** The second request, over the first one where it is silent. */
  function Both(first: OptionsChange, second: OptionsChange): OptionsChange {
    OptionsChange(
      if second.access.Some? then second.access else first.access,
      first.masks + second.masks,
      if second.intervalMs.Some? then second.intervalMs else first.intervalMs,
      if second.delayMs.Some? then second.delayMs else first.delayMs,
      if second.skipSelf.Some? then second.skipSelf else first.skipSelf,
      if second.skipFirst.Some? then second.skipFirst else first.skipFirst)
  }

  /** Two requests one after the other do what both do at once. */
  lemma RequestsInTurn(o: Options, first: OptionsChange, second: OptionsChange)
    ensures MergeOptions(MergeOptions(o, first), second) == MergeOptions(o, Both(first, second))
  {
    assert (o.masks + first.masks) + second.masks == o.masks + (first.masks + second.masks);
  }

  /** `element` stands for the identity of the list element the subscription points at. */
  datatype Subscription = Subscription(options: Options, subTime: Time, element: nat)

  datatype Entry = Entry(conn: Conn, element: nat, hadFirst: bool, last: Time, lastIndex: nat)

  datatype State = State(
    initialized: bool,
    msg: Option<Message>,
    msgIndex: nat,
    buffer: seq<Update>,
    maxIntervalMs: nat,
    queue: map<Conn, Entry>,
    subs: map<Conn, Subscription>,
    sent: map<Conn, seq<Message>>)

  /** What one update does to the channel data. */
  function Updated(s: State, updateMsg: Message, t: Time, sender: Conn): State {
    var buffer := s.buffer + [Update(updateMsg, t, sender, s.msgIndex + 1)];
    s.(msg := Some(if s.msg.None? then updateMsg else s.msg.value + updateMsg),
       msgIndex := s.msgIndex + 1,
       buffer := if Trims(buffer, s.maxIntervalMs, t) then buffer[1..] else buffer)
  }

  // ------------------------------------------------------------------ windows

  predicate Skipped(u: Update, conn: Conn, skipSelf: bool) {
    u.sender == conn && skipSelf
  }

  /** The scan of one window from `i` on. Its lower bound moves up to the last update it took. */
  function Select(buffer: seq<Update>, i: nat, low: Time, high: Time, conn: Conn, skipSelf: bool): seq<Update>
    requires i <= |buffer|
    decreases |buffer| - i
  {
    if i == |buffer| then []
    else
      var u := buffer[i];
      if !Skipped(u, conn, skipSelf) && low <= u.arrivalTime <= high then
        [u] + Select(buffer, i + 1, u.arrivalTime, high, conn, skipSelf)
      else Select(buffer, i + 1, low, high, conn, skipSelf)
  }

  function Max(a: int, b: int): int {
    if a < b then b else a
  }

  function NextTime(e: Entry, o: Options): Time {
    AddMs(e.last, o.intervalMs)
  }

  predicate Due(e: Entry, o: Options, t: Time) {
    t >= NextTime(e, o)
  }

  function Window(e: Entry, o: Options, buffer: seq<Update>): seq<Update> {
    Select(buffer, 0, Max(0, e.last), NextTime(e, o), e.conn, o.skipSelf)
  }

  /** One due subscriber: the whole data the first time, one window after that. */
  function ServedEntry(e: Entry, o: Options, s: State, t: Time): (served: Entry)
    requires s.msg.Some?
    ensures served.conn == e.conn && served.element == e.element && served.hadFirst
  {
    if !e.hadFirst then e.(hadFirst := true, last := t, lastIndex := s.msgIndex)
    else
      var us := Window(e, o, s.buffer);
      e.(last := NextTime(e, o), lastIndex := if us == [] then e.lastIndex else us[|us| - 1].index)
  }

  function ServedMessages(e: Entry, o: Options, s: State): seq<Message>
    requires s.msg.Some?
  {
    if !e.hadFirst then [Filter(s.msg.value, o.masks)]
    else
      var us := Window(e, o, s.buffer);
      if us == [] then [] else [Filter(Fold(map[], us), o.masks)]
  }

  /** How many windows, or first fan-outs, are overdue. */
  function Overdue(e: Entry, o: Options, t: Time): nat {
    if !Due(e, o, t) || o.intervalMs == 0 then 0
    else if !e.hadFirst then 1
    else (t - e.last) / (o.intervalMs * 1_000_000)
  }

  lemma OverdueDecreases(e: Entry, o: Options, s: State, t: Time)
    requires s.msg.Some? && o.intervalMs > 0 && Due(e, o, t)
    ensures Overdue(ServedEntry(e, o, s, t), o, t) == Overdue(e, o, t) - 1
  {
    hide Window, Fold;
    if e.hadFirst {
      DivideLess(t - e.last, o.intervalMs * 1_000_000);
    }
  }

  lemma DivideLess(n: nat, d: nat)
    requires 0 < d <= n
    ensures n / d >= 1
    ensures (n - d) / d == n / d - 1
    ensures n - d < d ==> n / d == 1
  {
    assert n == d * (n / d) + n % d;
    DivideIs(n - d, d, n / d - 1, n % d);
  }

  lemma DivideIs(n: int, d: int, q: int, r: int)
    requires 0 <= r < d && n == d * q + r
    ensures n / d == q
  {
    var q' := n / d;
    if q' < q {
      TimesMonotone(d, q' + 1, q);
    } else if q' > q {
      TimesMonotone(d, q + 1, q');
    }
  }

  lemma TimesMonotone(d: int, a: int, b: int)
    requires 0 <= d && a <= b
    ensures d * a <= d * b
  {
  }

  // ------------------------------------------------- one subscriber on its own

  /** The subscriber's own loop: while it is due, it is served. */
  function DrainedEntry(e: Entry, o: Options, s: State, t: Time): Entry
    requires s.msg.Some? && (Due(e, o, t) ==> o.intervalMs > 0)
    decreases Overdue(e, o, t)
  {
    if !Due(e, o, t) then e
    else
      OverdueDecreases(e, o, s, t);
      DrainedEntry(ServedEntry(e, o, s, t), o, s, t)
  }

  function DrainedMessages(e: Entry, o: Options, s: State, t: Time): seq<Message>
    requires s.msg.Some? && (Due(e, o, t) ==> o.intervalMs > 0)
    decreases Overdue(e, o, t)
  {
    if !Due(e, o, t) then []
    else
      OverdueDecreases(e, o, s, t);
      ServedMessages(e, o, s) + DrainedMessages(ServedEntry(e, o, s, t), o, s, t)
  }

  lemma {:induction false} DrainedIsNotDue(e: Entry, o: Options, s: State, t: Time)
    requires s.msg.Some? && (Due(e, o, t) ==> o.intervalMs > 0)
    ensures var d := DrainedEntry(e, o, s, t);
            && !Due(d, o, t)
            && d.conn == e.conn && d.element == e.element
            && (e.hadFirst ==> d.hadFirst)
            && e.last <= d.last
    decreases Overdue(e, o, t)
  {
    hide Window;
    if Due(e, o, t) {
      OverdueDecreases(e, o, s, t);
      DrainedIsNotDue(ServedEntry(e, o, s, t), o, s, t);
    }
  }

  // ------------------------------------------------------------ a whole tick

  /** The connections a tick serves: open, subscribed and with access. */
  predicate Readable(s: State, c: Conn, closing: set<Conn>) {
    c !in closing && c in s.subs && s.subs[c].options.access != NO_ACCESS
  }

  /** Nobody who is due has interval 0. */
  ghost predicate PositiveIntervals(s: State, t: Time, closing: set<Conn>) {
    forall c <- s.queue.Keys ::
      Readable(s, c, closing) && Due(s.queue[c], s.subs[c].options, t) ==> s.subs[c].options.intervalMs > 0
  }

  /** No first fan-out filters fields out of the live channel data. */
  ghost predicate HarmlessMasks(s: State, t: Time, closing: set<Conn>)
    requires s.msg.Some?
  {
    forall c <- s.queue.Keys ::
      Readable(s, c, closing) && !s.queue[c].hadFirst && Due(s.queue[c], s.subs[c].options, t)
      ==> Filter(s.msg.value, s.subs[c].options.masks) == s.msg.value
  }

  ghost function TickedEntry(s: State, c: Conn, t: Time, closing: set<Conn>): Entry
    requires s.msg.Some? && PositiveIntervals(s, t, closing) && c in s.queue
  {
    if Readable(s, c, closing) then DrainedEntry(s.queue[c], s.subs[c].options, s, t) else s.queue[c]
  }

  ghost function TickedMessages(s: State, c: Conn, t: Time, closing: set<Conn>): seq<Message>
    requires s.msg.Some? && PositiveIntervals(s, t, closing)
  {
    if c in s.queue && Readable(s, c, closing) then DrainedMessages(s.queue[c], s.subs[c].options, s, t) else []
  }

  /** What a tick is for: every connection gets what its own loop would send. */
  ghost function Ticked(s: State, t: Time, closing: set<Conn>): State
    requires s.msg.Some? ==> PositiveIntervals(s, t, closing)
  {
    if s.msg.None? then s
    else s.(
      queue := map c | c in s.queue && c !in closing :: TickedEntry(s, c, t, closing),
      sent := map c | c in s.sent :: s.sent[c] + TickedMessages(s, c, t, closing))
  }

  /** Dropping the entry of a closing connection changes nothing else. */
  lemma TickedWithoutClosing(s: State, c: Conn, t: Time, closing: set<Conn>)
    requires s.msg.Some? && PositiveIntervals(s, t, closing) && c in closing
    ensures var s' := s.(queue := s.queue - {c});
            && PositiveIntervals(s', t, closing)
            && Ticked(s', t, closing) == Ticked(s, t, closing)
            && (HarmlessMasks(s, t, closing) ==> HarmlessMasks(s', t, closing))
  {
    hide DrainedEntry, DrainedMessages;
    var s' := s.(queue := s.queue - {c});
    forall d | d in s'.queue
      ensures TickedEntry(s', d, t, closing) == TickedEntry(s, d, t, closing)
    {
      if Readable(s, d, closing) {
        DrainedSame(s'.queue[d], s.subs[d].options, s', s, t);
      }
    }
    forall d | d in s.sent
      ensures TickedMessages(s', d, t, closing) == TickedMessages(s, d, t, closing)
    {
      if d in s'.queue && Readable(s, d, closing) {
        DrainedSame(s'.queue[d], s.subs[d].options, s', s, t);
      }
    }
    assert Ticked(s', t, closing).queue == Ticked(s, t, closing).queue;
    assert Ticked(s', t, closing).sent == Ticked(s, t, closing).sent;
  }

  /** A subscriber's own loop depends on the channel data only, not on other subscribers. */
  lemma {:induction false} DrainedSame(e: Entry, o: Options, s: State, s': State, t: Time)
    requires s.msg.Some? && s'.msg == s.msg && s'.msgIndex == s.msgIndex && s'.buffer == s.buffer
    requires Due(e, o, t) ==> o.intervalMs > 0
    ensures DrainedEntry(e, o, s', t) == DrainedEntry(e, o, s, t)
    ensures DrainedMessages(e, o, s', t) == DrainedMessages(e, o, s, t)
    decreases Overdue(e, o, t)
  {
    hide Window, Fold;
    if Due(e, o, t) {
      OverdueDecreases(e, o, s, t);
      DrainedSame(ServedEntry(e, o, s, t), o, s, s', t);
    }
  }

  ghost function ServeOne(s: State, c: Conn, t: Time): State
    requires s.msg.Some? && c in s.queue && c in s.subs && c in s.sent
  {
    var e, o := s.queue[c], s.subs[c].options;
    s.(queue := s.queue[c := ServedEntry(e, o, s, t)],
       sent := s.sent[c := s.sent[c] + ServedMessages(e, o, s)])
  }

  ghost predicate Servable(s: State, c: Conn, t: Time, closing: set<Conn>) {
    && s.msg.Some? && PositiveIntervals(s, t, closing)
    && c in s.queue && c in s.sent && s.queue[c].conn == c
    && Readable(s, c, closing) && Due(s.queue[c], s.subs[c].options, t)
  }

  lemma ServeOneKeeps(s: State, c: Conn, t: Time, closing: set<Conn>)
    requires Servable(s, c, t, closing)
    ensures PositiveIntervals(ServeOne(s, c, t), t, closing)
    ensures HarmlessMasks(s, t, closing) ==> HarmlessMasks(ServeOne(s, c, t), t, closing)
  {
    hide Window, Fold, Filter;
  }

  lemma TickedForOne(s: State, c: Conn, d: Conn, t: Time, closing: set<Conn>)
    requires Servable(s, c, t, closing) && PositiveIntervals(ServeOne(s, c, t), t, closing)
    ensures var s' := ServeOne(s, c, t);
            && (d in s.queue ==> TickedEntry(s', d, t, closing) == TickedEntry(s, d, t, closing))
            && (d in s.sent ==>
                  s'.sent[d] + TickedMessages(s', d, t, closing) == s.sent[d] + TickedMessages(s, d, t, closing))
  {
    hide ServedEntry, ServedMessages, Overdue;
    var s' := ServeOne(s, c, t);
    var e, o := s.queue[c], s.subs[c].options;
    if d == c {
      var e' := s'.queue[c];
      DrainedSame(e', o, s, s', t);
      var now, later := ServedMessages(e, o, s), DrainedMessages(e', o, s, t);
      assert DrainedMessages(e, o, s, t) == now + later;
      assert (s.sent[c] + now) + later == s.sent[c] + (now + later);
    } else if d in s.queue && Readable(s, d, closing) {
      DrainedSame(s.queue[d], s.subs[d].options, s, s', t);
    }
  }

  /** Serving one due subscriber early leaves the outcome of the tick as it was. */
  lemma TickedAfterServing(s: State, c: Conn, t: Time, closing: set<Conn>)
    requires Servable(s, c, t, closing)
    ensures var s' := ServeOne(s, c, t);
            && PositiveIntervals(s', t, closing)
            && Ticked(s', t, closing) == Ticked(s, t, closing)
            && (HarmlessMasks(s, t, closing) ==> HarmlessMasks(s', t, closing))
  {
    hide ServedEntry, ServedMessages, TickedEntry, TickedMessages, PositiveIntervals, HarmlessMasks;
    ServeOneKeeps(s, c, t, closing);
    var s' := ServeOne(s, c, t);
    forall d {
      TickedForOne(s, c, d, t, closing);
    }
    assert Ticked(s', t, closing).queue == Ticked(s, t, closing).queue;
    assert Ticked(s', t, closing).sent == Ticked(s, t, closing).sent;
  }

  /** Once nobody is due and no closing connection is queued, the tick has nothing left to do. */
  lemma TickedWhenSettled(s: State, t: Time, closing: set<Conn>)
    requires s.msg.Some? && PositiveIntervals(s, t, closing)
    requires forall c <- s.queue.Keys ::
               c !in closing && (Readable(s, c, closing) ==> !Due(s.queue[c], s.subs[c].options, t))
    ensures Ticked(s, t, closing) == s
  {
    forall c | c in s.sent
      ensures s.sent[c] + TickedMessages(s, c, t, closing) == s.sent[c]
    {
      assert s.sent[c] + [] == s.sent[c];
    }
    assert Ticked(s, t, closing).queue == s.queue;
    assert Ticked(s, t, closing).sent == s.sent;
  }
}

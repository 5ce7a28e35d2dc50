/**
 The steps of a tick's walk of the fan-out queue, in whatever order the queue brings them. A first
 fan-out filters the channel's own data, so that what later first fan-outs send depends on the order.
 */
module Walks {
  import opened Prelude
  import opened FanOut

  datatype Step = Drops(conn: Conn) | Serves(conn: Conn)

  ghost predicate Enabled(s: State, step: Step, t: Time, closing: set<Conn>) {
    && s.msg.Some? && step.conn in s.queue
    && (step.Drops? ==> step.conn in closing)
    && (step.Serves? ==>
          && step.conn in s.sent && s.queue[step.conn].conn == step.conn
          && Readable(s, step.conn, closing) && Due(s.queue[step.conn], s.subs[step.conn].options, t))
  }

  /** The live data after a connection has been served. */
  function LiveAfter(s: State, c: Conn): Message
    requires s.msg.Some? && c in s.queue && c in s.subs
  {
    if s.queue[c].hadFirst then s.msg.value else Filter(s.msg.value, s.subs[c].options.masks)
  }

  ghost function Stepped(s: State, step: Step, t: Time, closing: set<Conn>): State
    requires Enabled(s, step, t, closing)
  {
    match step
    case Drops(c) => s.(queue := s.queue - {c})
    case Serves(c) => ServeOne(s, c, t).(msg := Some(LiveAfter(s, c)))
  }

  ghost predicate Walked(s: State, steps: seq<Step>, end: State, t: Time, closing: set<Conn>)
    decreases |steps|
  {
    if steps == [] then end == s
    else Enabled(s, steps[0], t, closing) && Walked(Stepped(s, steps[0], t, closing), steps[1..], end, t, closing)
  }

  lemma {:induction false} WalkedSnoc(s: State, steps: seq<Step>, mid: State, step: Step, t: Time, closing: set<Conn>)
    requires Walked(s, steps, mid, t, closing) && Enabled(mid, step, t, closing)
    ensures Walked(s, steps + [step], Stepped(mid, step, t, closing), t, closing)
    decreases |steps|
  {
    hide Enabled, Stepped;
    if steps == [] {
      assert ([] + [step])[1..] == [];
    } else {
      assert (steps + [step])[1..] == steps[1..] + [step];
      WalkedSnoc(Stepped(s, steps[0], t, closing), steps[1..], mid, step, t, closing);
    }
  }

  // ----------------------------------------------- after the first fan-out

  /** A loop that is past its first fan-out looks at the buffer only, not at the live data. */
  lemma {:induction false} DrainedFromBuffer(e: Entry, o: Options, s: State, s': State, t: Time)
    requires s.msg.Some? && s'.msg.Some? && s'.buffer == s.buffer && e.hadFirst
    requires Due(e, o, t) ==> o.intervalMs > 0
    ensures DrainedEntry(e, o, s', t) == DrainedEntry(e, o, s, t)
    ensures DrainedMessages(e, o, s', t) == DrainedMessages(e, o, s, t)
    decreases Overdue(e, o, t)
  {
    hide Window, Fold;
    if Due(e, o, t) {
      OverdueDecreases(e, o, s, t);
      DrainedFromBuffer(ServedEntry(e, o, s, t), o, s, s', t);
    }
  }

  /** A reader past its first fan-out: its entry, and its interval if it is due. */
  ghost predicate Follower(s: State, d: Conn, t: Time, closing: set<Conn>) {
    && s.msg.Some? && d in s.queue && d in s.sent && s.queue[d].hadFirst && Readable(s, d, closing)
    && (Due(s.queue[d], s.subs[d].options, t) ==> s.subs[d].options.intervalMs > 0)
  }

  lemma StepFollows(s: State, step: Step, d: Conn, t: Time, closing: set<Conn>)
    requires Follower(s, d, t, closing) && Enabled(s, step, t, closing)
    ensures var (s', o) := (Stepped(s, step, t, closing), s.subs[d].options);
            && Follower(s', d, t, closing) && s'.buffer == s.buffer && s'.subs == s.subs
            && DrainedEntry(s'.queue[d], o, s', t) == DrainedEntry(s.queue[d], o, s, t)
            && s'.sent[d] + DrainedMessages(s'.queue[d], o, s', t) == s.sent[d] + DrainedMessages(s.queue[d], o, s, t)
  {
    var s', e, o := Stepped(s, step, t, closing), s.queue[d], s.subs[d].options;
    hide Window, Fold, Filter, ServedMessages;
    if step == Serves(d) {
      var e' := ServedEntry(e, o, s, t);
      var now, later := ServedMessages(e, o, s), DrainedMessages(e', o, s, t);
      DrainedFromBuffer(e', o, s, s', t);
      assert (s.sent[d] + now) + later == s.sent[d] + (now + later);
    } else {
      DrainedFromBuffer(e, o, s, s', t);
    }
  }

  /**
   Whatever masks others have, and in whatever order the queue is walked: a reader past its first
   fan-out that is no longer due at the end has been sent exactly what its own loop sends.
   */
  lemma {:induction false} FollowersAreServed(s: State, steps: seq<Step>, end: State, d: Conn, t: Time,
                                              closing: set<Conn>)
    requires Follower(s, d, t, closing) && Walked(s, steps, end, t, closing)
    ensures Follower(end, d, t, closing) && end.subs == s.subs
    ensures !Due(end.queue[d], s.subs[d].options, t) ==>
              && end.queue[d] == DrainedEntry(s.queue[d], s.subs[d].options, s, t)
              && end.sent[d] == s.sent[d] + DrainedMessages(s.queue[d], s.subs[d].options, s, t)
    decreases |steps|
  {
    if steps == [] {
      assert s.sent[d] + [] == s.sent[d];
    } else {
      StepFollows(s, steps[0], d, t, closing);
      hide Follower, Enabled, Stepped, DrainedEntry, DrainedMessages;
      FollowersAreServed(Stepped(s, steps[0], t, closing), steps[1..], end, d, t, closing);
    }
  }

  // ------------------------------------------------------- first fan-outs

  /** The masks of the first fan-outs, in the order of the walk. */
  ghost function FirstMasks(s: State, steps: seq<Step>, t: Time, closing: set<Conn>): seq<seq<nat>>
    decreases |steps|
  {
    if steps == [] || !Enabled(s, steps[0], t, closing) then []
    else
      var c := steps[0].conn;
      (if steps[0].Serves? && !s.queue[c].hadFirst then [s.subs[c].options.masks] else [])
      + FirstMasks(Stepped(s, steps[0], t, closing), steps[1..], t, closing)
  }

  function FilterAll(m: Message, masks: seq<seq<nat>>): Message {
    if masks == [] then m else FilterAll(Filter(m, masks[0]), masks[1..])
  }

  /** A field is left in the live data iff every first fan-out's masks leave it. */
  lemma {:induction false} FilterAllKeeps(m: Message, masks: seq<seq<nat>>, k: nat)
    ensures k in FilterAll(m, masks) <==> k in m && forall i | 0 <= i < |masks| :: masks[i] == [] || k in masks[i]
    ensures k in FilterAll(m, masks) ==> FilterAll(m, masks)[k] == m[k]
  {
    if masks != [] {
      FilterAllKeeps(Filter(m, masks[0]), masks[1..], k);
      if k in FilterAll(m, masks) {
        forall i | 0 <= i < |masks| ensures masks[i] == [] || k in masks[i] {
          assert i > 0 ==> masks[i] == masks[1..][i - 1];
        }
      }
    }
  }

  lemma LiveAfterFirst(s: State, steps: seq<Step>, t: Time, closing: set<Conn>)
    requires steps != [] && Enabled(s, steps[0], t, closing)
    ensures var s1 := Stepped(s, steps[0], t, closing);
            s1.msg.Some? && FilterAll(s.msg.value, FirstMasks(s, steps, t, closing))
                         == FilterAll(s1.msg.value, FirstMasks(s1, steps[1..], t, closing))
  {
    hide ServedEntry, ServedMessages, Filter;
    var c, rest := steps[0].conn, FirstMasks(Stepped(s, steps[0], t, closing), steps[1..], t, closing);
    assert [] + rest == rest;
    if steps[0].Serves? && !s.queue[c].hadFirst {
      assert ([s.subs[c].options.masks] + rest)[1..] == rest;
    }
  }

  /** A walk leaves of the live data what all its first fan-outs leave. */
  lemma {:induction false} WalkFiltersLiveData(s: State, steps: seq<Step>, end: State, t: Time, closing: set<Conn>)
    requires s.msg.Some? && Walked(s, steps, end, t, closing)
    ensures end.msg == Some(FilterAll(s.msg.value, FirstMasks(s, steps, t, closing)))
    decreases |steps|
  {
    hide ServedEntry, ServedMessages, Filter;
    if steps != [] {
      LiveAfterFirst(s, steps, t, closing);
      hide Enabled, Stepped, FirstMasks, FilterAll;
      WalkFiltersLiveData(Stepped(s, steps[0], t, closing), steps[1..], end, t, closing);
    }
  }

  /** A reader that waits for its first fan-out. */
  ghost predicate Newcomer(s: State, d: Conn, t: Time, closing: set<Conn>) {
    && s.msg.Some? && d in s.queue && d in s.sent && !s.queue[d].hadFirst && Readable(s, d, closing)
    && Due(s.queue[d], s.subs[d].options, t) && s.subs[d].options.intervalMs > 0
  }

  lemma StepLeavesNewcomer(s: State, step: Step, d: Conn, t: Time, closing: set<Conn>)
    requires Newcomer(s, d, t, closing) && Enabled(s, step, t, closing) && step.conn != d
    ensures var s' := Stepped(s, step, t, closing);
            && Newcomer(s', d, t, closing) && s'.buffer == s.buffer && s'.subs == s.subs && s'.msgIndex == s.msgIndex
            && s'.queue[d] == s.queue[d] && s'.sent[d] == s.sent[d]
  {
    hide ServedEntry, ServedMessages, Filter;
  }

  lemma FirstFanOutStarts(s: State, d: Conn, t: Time, closing: set<Conn>)
    requires Newcomer(s, d, t, closing) && Enabled(s, Serves(d), t, closing)
    ensures var (s', o) := (Stepped(s, Serves(d), t, closing), s.subs[d].options);
            && Follower(s', d, t, closing) && s'.buffer == s.buffer && s'.subs == s.subs
            && s'.queue[d] == s.queue[d].(hadFirst := true, last := t, lastIndex := s.msgIndex)
            && !Due(s'.queue[d], o, t)
            && s'.sent[d] == s.sent[d] + [Filter(s.msg.value, o.masks)]
  {
    hide Window, Fold, Filter;
  }

  /**
   Where in the walk a newcomer is served, and what it is then sent: the live data that the first
   fan-outs before its own have left, filtered by its own masks, and nothing else in this tick.
   */
  lemma {:induction false} NewcomersAreServed(s: State, steps: seq<Step>, end: State, d: Conn, t: Time,
                                              closing: set<Conn>)
    returns (n: nat)
    requires Newcomer(s, d, t, closing) && Walked(s, steps, end, t, closing)
    requires d in end.queue && !Due(end.queue[d], s.subs[d].options, t)
    ensures n < |steps| && steps[n] == Serves(d) && d in end.sent
    ensures end.sent[d] == s.sent[d] +
              [Filter(FilterAll(s.msg.value, FirstMasks(s, steps[..n], t, closing)), s.subs[d].options.masks)]
    ensures end.queue[d] == s.queue[d].(hadFirst := true, last := t, lastIndex := s.msgIndex)
    decreases |steps|
  {
    if steps[0].conn == d {
      n := 0;
      FirstFanOutStarts(s, d, t, closing);
      var s1 := Stepped(s, steps[0], t, closing);
      FollowersAreServed(s1, steps[1..], end, d, t, closing);
      assert steps[..0] == [];
      assert s1.sent[d] + [] == s1.sent[d];
    } else {
      StepLeavesNewcomer(s, steps[0], d, t, closing);
      var s1 := Stepped(s, steps[0], t, closing);
      var later := NewcomersAreServed(s1, steps[1..], end, d, t, closing);
      n := later + 1;
      LiveAfterFirst(s, steps[..n], t, closing);
      assert steps[..n][1..] == steps[1..][..later];
    }
  }

  // ----------------------------------------------------------- everybody else

  /** Who is not to be served, and not to be dropped. */
  ghost predicate Bystander(s: State, d: Conn, t: Time, closing: set<Conn>) {
    && d in s.queue && d in s.sent && d !in closing
    && (Readable(s, d, closing) ==> !Due(s.queue[d], s.subs[d].options, t))
  }

  lemma {:induction false} BystandersAreLeftAlone(s: State, steps: seq<Step>, end: State, d: Conn, t: Time,
                                                  closing: set<Conn>)
    requires Bystander(s, d, t, closing) && Walked(s, steps, end, t, closing)
    ensures d in end.queue && d in end.sent && end.queue[d] == s.queue[d] && end.sent[d] == s.sent[d]
    decreases |steps|
  {
    hide ServedEntry, ServedMessages, Filter;
    if steps != [] {
      BystandersAreLeftAlone(Stepped(s, steps[0], t, closing), steps[1..], end, d, t, closing);
    }
  }

  /** Whoever is closing, has no access or is not subscribed is sent nothing. */
  lemma {:induction false} OthersAreSentNothing(s: State, steps: seq<Step>, end: State, d: Conn, t: Time,
                                                closing: set<Conn>)
    requires Walked(s, steps, end, t, closing) && d in s.sent
    requires d in closing || d !in s.subs || s.subs[d].options.access == NO_ACCESS
    ensures d in end.sent && end.sent[d] == s.sent[d]
    decreases |steps|
  {
    hide ServedEntry, ServedMessages, Filter;
    if steps != [] {
      OthersAreSentNothing(Stepped(s, steps[0], t, closing), steps[1..], end, d, t, closing);
    }
  }

  // ------------------------------------------------------- what everybody gets

  /** The message has no field besides those that the masks name, if there are any. */
  predicate Masked(m: Message, masks: seq<nat>) {
    masks != [] ==> forall k <- m.Keys :: k in masks
  }

  /** Nothing is taken back, and what is new respects the connection's masks. */
  ghost predicate NewMasked(before: seq<Message>, after: seq<Message>, c: Conn, subs: map<Conn, Subscription>) {
    && before <= after
    && (before != after ==>
          c in subs && forall i | |before| <= i < |after| :: Masked(after[i], subs[c].options.masks))
  }

  ghost predicate SentMasked(before: map<Conn, seq<Message>>, after: map<Conn, seq<Message>>,
                             subs: map<Conn, Subscription>) {
    after.Keys == before.Keys && forall c <- before.Keys :: NewMasked(before[c], after[c], c, subs)
  }

  lemma StepSendsMasked(s: State, step: Step, t: Time, closing: set<Conn>)
    requires Enabled(s, step, t, closing)
    ensures SentMasked(s.sent, Stepped(s, step, t, closing).sent, s.subs) && Stepped(s, step, t, closing).subs == s.subs
  {
    hide Window, Fold;
  }

  lemma NewMaskedInTurn(x: seq<Message>, y: seq<Message>, z: seq<Message>, c: Conn, subs: map<Conn, Subscription>)
    requires NewMasked(x, y, c, subs) && NewMasked(y, z, c, subs)
    ensures NewMasked(x, z, c, subs)
  {
    hide Masked;
    assert forall i | 0 <= i < |y| :: z[i] == y[i];
    assert forall i | 0 <= i < |x| :: y[i] == x[i];
    assert x <= z;
    if x == y {
      assert x != z ==> y != z;
    }
  }

  lemma MaskedInTurn(a: map<Conn, seq<Message>>, b: map<Conn, seq<Message>>, c: map<Conn, seq<Message>>,
                     subs: map<Conn, Subscription>)
    requires SentMasked(a, b, subs) && SentMasked(b, c, subs)
    ensures SentMasked(a, c, subs)
  {
    hide NewMasked;
    forall d | d in a ensures NewMasked(a[d], c[d], d, subs) {
      NewMaskedInTurn(a[d], b[d], c[d], d, subs);
    }
  }

  /** In a walk nobody is sent a field outside of its masks, be it in a first fan-out or later. */
  lemma {:induction false} WalkSendsMasked(s: State, steps: seq<Step>, end: State, t: Time, closing: set<Conn>)
    requires Walked(s, steps, end, t, closing)
    ensures SentMasked(s.sent, end.sent, s.subs) && end.subs == s.subs
    decreases |steps|
  {
    hide SentMasked, Enabled, Stepped;
    if steps == [] {
      NothingSent(s);
    } else {
      StepSendsMasked(s, steps[0], t, closing);
      WalkSendsMasked(Stepped(s, steps[0], t, closing), steps[1..], end, t, closing);
      MaskedInTurn(s.sent, Stepped(s, steps[0], t, closing).sent, end.sent, s.subs);
    }
  }

  lemma NothingSent(s: State)
    ensures SentMasked(s.sent, s.sent, s.subs)
  {
  }

  /** The time that fan-outs at this interval take. */
  function Span(messages: int, intervalMs: nat): int {
    messages * (intervalMs * 1_000_000)
  }

  lemma StepIsPaced(s: State, step: Step, d: Conn, t: Time, closing: set<Conn>)
    requires Follower(s, d, t, closing) && Enabled(s, step, t, closing)
    ensures var (s', o) := (Stepped(s, step, t, closing), s.subs[d].options);
            && Follower(s', d, t, closing) && s'.subs == s.subs && |s.sent[d]| <= |s'.sent[d]|
            && Span(|s'.sent[d]| - |s.sent[d]|, o.intervalMs) <= s'.queue[d].last - s.queue[d].last
            && s'.queue[d].last <= Max(t, s.queue[d].last)
  {
    hide Window, Fold, Filter;
  }

  /** Past its first fan-out nobody is sent more than one message an interval, and none before its time. */
  lemma {:induction false} WalkIsPaced(s: State, steps: seq<Step>, end: State, d: Conn, t: Time, closing: set<Conn>)
    requires Follower(s, d, t, closing) && Walked(s, steps, end, t, closing)
    ensures d in end.queue && d in end.sent && |s.sent[d]| <= |end.sent[d]|
    ensures Span(|end.sent[d]| - |s.sent[d]|, s.subs[d].options.intervalMs) <= end.queue[d].last - s.queue[d].last
    ensures end.queue[d].last <= Max(t, s.queue[d].last)
    decreases |steps|
  {
    if steps != [] {
      StepIsPaced(s, steps[0], d, t, closing);
      var s1 := Stepped(s, steps[0], t, closing);
      hide Follower, Enabled, Stepped;
      WalkIsPaced(s1, steps[1..], end, d, t, closing);
      SpansAdd(|s1.sent[d]| - |s.sent[d]|, |end.sent[d]| - |s1.sent[d]|, s.subs[d].options.intervalMs);
      hide Span;
    }
  }

  lemma SpansAdd(a: int, b: int, intervalMs: nat)
    ensures Span(a + b, intervalMs) == Span(a, intervalMs) + Span(b, intervalMs)
  {
  }

  // -------------------------------------------------------------- interval 0

  /** An open reader with interval 0 that is due. */
  ghost predicate Insatiable(s: State, d: Conn, t: Time, closing: set<Conn>) {
    && d in s.queue && Readable(s, d, closing)
    && s.subs[d].options.intervalMs == 0 && Due(s.queue[d], s.subs[d].options, t)
  }

  /** Whatever steps a walk takes, such a reader is due after them. */
  lemma {:induction false} ZeroIntervalIsAlwaysDue(s: State, steps: seq<Step>, end: State, d: Conn, t: Time,
                                                   closing: set<Conn>)
    requires Insatiable(s, d, t, closing) && Walked(s, steps, end, t, closing)
    ensures Insatiable(end, d, t, closing)
    decreases |steps|
  {
    hide Window, Fold, ServedMessages, Filter;
    if steps != [] {
      ZeroIntervalIsAlwaysDue(Stepped(s, steps[0], t, closing), steps[1..], end, d, t, closing);
    }
  }

  // ---------------------------------------------------------------- examples

  function Reading(masks: seq<nat>, intervalMs: nat): Subscription {
    Subscription(Options(READ_ACCESS, masks, intervalMs, 0, false, false), 0, 0)
  }

  /** A single reader with interval 0, which has had everything. */
  function OneEagerReader(): State {
    State(true, Some(map[]), 0, [], 0, map[1 := Entry(1, 0, true, 0, 0)], map[1 := Reading([], 0)], map[1 := []])
  }

  lemma EagerReaderIsInsatiable()
    ensures Insatiable(OneEagerReader(), 1, 0, {})
  {
  }

  /** Two newcomers; the first one reads only field 1. */
  function TwoNewcomers(): State {
    State(true, Some(map[1 := 10, 2 := 20]), 0, [], 0,
          map[1 := Entry(1, 0, false, 0, 0), 2 := Entry(2, 1, false, 0, 0)],
          map[1 := Reading([1], 20), 2 := Reading([], 20)], map[1 := [], 2 := []])
  }

  /** Once the first is served, field 2 is lost: to the channel, and to the second, which has no masks. */
  lemma FirstFanOutTakesFields()
    ensures var (s, t) := (TwoNewcomers(), 20_000_000);
            && Enabled(s, Serves(1), t, {})
            && var s1 := Stepped(s, Serves(1), t, {});
               && s1.msg == Some(map[1 := 10]) && Enabled(s1, Serves(2), t, {})
               && Stepped(s1, Serves(2), t, {}).sent[2] == [map[1 := 10]]
  {
    var s := TwoNewcomers();
    assert Filter(s.msg.value, [1]) == map[1 := 10];
  }

  /** A reader of field 1 that is past its first fan-out, and an update of two fields. */
  function MaskedReader(): State {
    State(true, Some(map[1 := 10, 2 := 20]), 1, [Update(map[1 := 10, 2 := 20], 5, 2, 1)], 20,
          map[1 := Entry(1, 0, true, 0, 0)], map[1 := Reading([1], 20)], map[1 := []])
  }

  /** It is sent field 1 of the update. */
  lemma DeltaIsMasked()
    ensures var (s, t) := (MaskedReader(), 20_000_000);
            && Enabled(s, Serves(1), t, {})
            && Stepped(s, Serves(1), t, {}).sent[1] == [map[1 := 10]]
  {
    var s, t := MaskedReader(), 20_000_000;
    var (e, o, u) := (s.queue[1], s.subs[1].options, s.buffer[0]);
    assert ServedMessages(e, o, s) == [map[1 := 10]] by { OneMasked(e, o, s, u); }
    hide ServedMessages, Window;
    assert [] + [map[1 := 10]] == [map[1 := 10]];
  }

  lemma OneMasked(e: Entry, o: Options, s: State, u: Update)
    requires e == Entry(1, 0, true, 0, 0) && o == Reading([1], 20).options && s.msg.Some? && s.buffer == [u]
    requires u == Update(map[1 := 10, 2 := 20], 5, 2, 1)
    ensures ServedMessages(e, o, s) == [map[1 := 10]]
  {
    assert Window(e, o, s.buffer) == [u] + Select(s.buffer, 1, 5, NextTime(e, o), 1, false);
    FoldSnoc(map[], [], u);
    assert [] + [u] == [u] && map[] + u.msg == u.msg;
    assert Filter(u.msg, [1]) == map[1 := 10];
  }
}

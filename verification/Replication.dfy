/**
 Replica convergence: over every run of updates, ticks and subscriptions, what has been sent
 to a subscriber merges to the channel data as of the subscriber's last fan-out time.
 */
module Replication {
  import opened Prelude
  import opened FanOut
  import opened Windows
  import opened Feeds

  // -------------------------------------------------------- merging messages

  /** What a subscriber holds after merging the messages in order. */
  function Merged(ms: seq<Message>): Message {
    if ms == [] then map[] else Merged(ms[..|ms| - 1]) + ms[|ms| - 1]
  }

  lemma MergedSnoc(ms: seq<Message>, m: Message)
    ensures Merged(ms + [m]) == Merged(ms) + m
  {
    assert (ms + [m])[..|ms|] == ms;
  }

  lemma {:induction false} FoldConcat(base: Message, us: seq<Update>, vs: seq<Update>)
    ensures Fold(base, us + vs) == Fold(base, us) + Fold(map[], vs)
  {
    if vs == [] {
      assert us + vs == us;
      assert Fold(base, us) + map[] == Fold(base, us);
    } else {
      var front, last := vs[..|vs| - 1], vs[|vs| - 1];
      FoldConcat(base, us, front);
      assert (us + vs)[..|us + vs| - 1] == us + front;
      MergeAssociative(Fold(base, us), Fold(map[], front), last.msg);
    }
  }

  lemma MergeAssociative(x: Message, y: Message, z: Message)
    ensures x + (y + z) == (x + y) + z
  {
  }

  /** Merging updates again that are among the last merged changes nothing. */
  lemma MergeAgain(x: Message, s: Message, b: Message)
    ensures (x + s) + (s + b) == (x + s) + b
  {
  }

  lemma MergeOverSubset(x: Message, y: Message)
    requires x.Keys <= y.Keys
    ensures x + y == y
  {
  }

  /** A delta that starts at or before what the replica has, and ends behind it, extends it. */
  lemma DeltaExtends(base: Message, log: seq<Update>, a: nat, m: nat, b: nat)
    requires a <= m <= b <= |log|
    ensures Fold(base, log[..m]) + Fold(map[], log[a..b]) == Fold(base, log[..b])
  {
    var again, behind := log[a..m], log[m..b];
    assert log[..m] == log[..a] + again;
    assert log[a..b] == again + behind;
    assert log[..b] == log[..m] + behind;
    hide Fold;
    FoldConcat(base, log[..a], again);
    FoldConcat(map[], again, behind);
    FoldConcat(base, log[..m], behind);
    MergeAgain(Fold(base, log[..a]), Fold(map[], again), Fold(map[], behind));
  }

  // ------------------------------------------------------------- one window

  /** The part of the log that is still buffered. */
  ghost predicate Buffers(buffer: seq<Update>, log: seq<Update>) {
    |buffer| <= |log| && buffer == From(log, |log| - |buffer|)
  }

  ghost predicate OrderedLog(log: seq<Update>, t: Time) {
    Sorted(log) && forall u <- log :: 0 <= u.arrivalTime <= t
  }

  lemma BufferOfLog(buffer: seq<Update>, log: seq<Update>, t: Time)
    requires Buffers(buffer, log) && OrderedLog(log, t)
    ensures OrderedLog(buffer, t) && forall u <- buffer :: u in log
  {
    SortedEnd(log, |log| - |buffer|);
    var k := |log| - |buffer|;
    forall u | u in buffer ensures u in log {
      var j :| 0 <= j < |buffer| && buffer[j] == u;
      assert log[k + j] == u;
    }
  }

  lemma HeardIsOrdered(us: seq<Update>, conn: Conn, skipsOwn: bool, t: Time)
    requires OrderedLog(us, t)
    ensures OrderedLog(Heard(us, conn, skipsOwn), t)
    ensures forall u :: u in Heard(us, conn, skipsOwn) <==> u in us && !(skipsOwn && u.sender == conn)
  {
    OthersAre(us, conn);
  }

  /** Times are not negative: nothing arrived between the subscriber's time and the window's lower bound. */
  lemma BelowWindow(us: seq<Update>, last: Time, t: Time)
    requires OrderedLog(us, t)
    ensures Cut(us, Max(0, last) - 1) == Below(us, last)
  {
    if last < 0 {
      CutSplits(us, -1);
      CutSplits(us, last - 1);
      assert us != [] ==> us[0] in us;
    }
  }

  /** A window is what is buffered, of what the subscriber gets at all, from its last fan-out to the next. */
  lemma WindowOfBuffer(e: Entry, o: Options, buffer: seq<Update>, t: Time)
    requires OrderedLog(buffer, t)
    ensures var us := Heard(buffer, e.conn, o.skipSelf);
            && Below(us, e.last) <= Cut(us, NextTime(e, o))
            && Window(e, o, buffer) == us[Below(us, e.last)..Cut(us, NextTime(e, o))]
  {
    var us := Heard(buffer, e.conn, o.skipSelf);
    HeardIsOrdered(buffer, e.conn, o.skipSelf, t);
    BelowWindow(us, e.last, t);
    CutMonotone(us, e.last - 1, NextTime(e, o));
    assert From(buffer, 0) == buffer;
    hide Select, Heard, Cut, From;
    SelectIsBetween(buffer, 0, Max(0, e.last), NextTime(e, o), e.conn, o.skipSelf);
  }

  // ---------------------------------------------------------- one subscriber

  /** The channel data is the base with the whole log merged in. */
  ghost predicate DataOf(s: State, base: Message, log: seq<Update>) {
    && (s.msg.None? ==> log == [] && base == map[])
    && (s.msg.Some? ==> s.msg.value == Fold(base, log))
    && Buffers(s.buffer, log)
    && (log != [] ==> log[|log| - 1].index == s.msgIndex)
  }

  // ---- masks ----

  lemma FilterPlus(a: Message, b: Message, masks: seq<nat>)
    ensures Filter(a + b, masks) == Filter(a, masks) + Filter(b, masks)
  {
  }

  /** No masks are the widest. */
  predicate Narrows(narrow: seq<nat>, masks: seq<nat>) {
    (narrow == [] <==> masks == []) && forall k <- narrow :: k in masks
  }

  lemma FilterTwice(m: Message, masks: seq<nat>, narrow: seq<nat>)
    requires Narrows(narrow, masks)
    ensures Filter(Filter(m, masks), narrow) == Filter(m, narrow)
  {
  }

  /** Whether updates of its own are skipped makes no difference, or is as the feed has it. */
  ghost predicate SameHearing(o: Options, f: Feed, conn: Conn, log: seq<Update>) {
    o.skipSelf == f.skipsOwn || forall u <- log :: u.sender != conn
  }

  lemma SameHeard(o: Options, f: Feed, conn: Conn, log: seq<Update>, buffer: seq<Update>)
    requires SameHearing(o, f, conn, log) && forall u <- buffer :: u in log
    ensures Heard(buffer, conn, o.skipSelf) == Heard(buffer, conn, f.skipsOwn)
  {
    if o.skipSelf != f.skipsOwn {
      NoneOfOnesOwn(buffer, conn);
    }
  }

  /** The fields of the channel data. */
  function Fields(s: State): set<nat> {
    if s.msg.Some? then s.msg.value.Keys else {}
  }

  /** What the replica is with the first `n` updates of its feed. */
  function ReplicaAt(f: Feed, n: nat): Message
    requires n <= |f.onTime|
  {
    Fold(f.start, f.onTime[..n])
  }

  /** The index is that of the last of the first `n` updates. */
  predicate LastOf(f: Feed, n: nat, index: nat)
    requires n <= |f.onTime|
  {
    n > 0 ==> index == f.onTime[n - 1].index
  }

  lemma SameFront(f: Feed, f': Feed, n: nat)
    requires n <= |f.onTime| && n <= |f'.onTime| && f'.onTime[..n] == f.onTime[..n] && f'.start == f.start
    ensures ReplicaAt(f', n) == ReplicaAt(f, n)
    ensures forall index :: LastOf(f', n, index) == LastOf(f, n, index)
  {
    assert n > 0 ==> f'.onTime[..n][n - 1] == f.onTime[..n][n - 1];
  }

  /** As far as the fields that all its masks have kept are concerned. */
  predicate SameFields(replica: Message, m: Message, masks: seq<nat>) {
    Filter(replica, masks) == Filter(m, masks)
  }

  /**
   A fanned-out subscriber has what its replica started from, and of the updates meant for it since, those up to its
   last fan-out. A replica starts from the initial data, unless the first fan-out was skipped, or left out own
   updates that came just then. No replica has a field that the channel data has not.
   */
  ghost predicate Converged(e: Entry, replica: Message, s: State, base: Message, log: seq<Update>, f: Feed) {
    && (forall u <- f.onTime :: u in log) && replica.Keys <= Fields(s)
    && if e.hadFirst then
         && Aligned(Heard(s.buffer, e.conn, f.skipsOwn), f, e.last)
         && SameFields(replica, ReplicaAt(f, Seen(f, e.last)), f.masks)
         && LastOf(f, Seen(f, e.last), e.lastIndex)
         && (!f.skipsOwn && !f.skipsFirst ==> f.start == base)
         && (f.skipsOwn ==> forall u <- f.onTime :: u.sender != e.conn)
       else f.onTime == log && f.start == base && !f.skipsFirst
  }

  /** The feed of a subscriber that is served. A replica that leaves out its own updates starts from the full data. */
  function Served(e: Entry, s: State, f: Feed, t: Time): Feed
    requires s.msg.Some?
  {
    if !e.hadFirst && f.skipsOwn then Started(f, s.msg.value, Heard(s.buffer, e.conn, true), t) else FannedOut(f)
  }

  /** A window is a part of the updates meant for the subscriber, and starts with some that it has. */
  lemma WindowOfFeed(e: Entry, o: Options, buffer: seq<Update>, f: Feed, t: Time) returns (a: nat)
    requires OrderedLog(buffer, t)
    requires Heard(buffer, e.conn, o.skipSelf) == Heard(buffer, e.conn, f.skipsOwn)
    requires Aligned(Heard(buffer, e.conn, f.skipsOwn), f, e.last)
    ensures a <= Seen(f, e.last) <= Cut(f.onTime, NextTime(e, o))
    ensures Window(e, o, buffer) == f.onTime[a..Cut(f.onTime, NextTime(e, o))]
  {
    var us := Heard(buffer, e.conn, f.skipsOwn);
    HeardIsOrdered(buffer, e.conn, f.skipsOwn, t);
    assert Sorted(us);
    hide Cut, Sorted, Window, Seen, Pending, Heard, InTime, OrderedLog, Below;
    WindowOfBuffer(e, o, buffer, t);
    WindowOfPending(us, f, e.last, NextTime(e, o));
    a := PendingAt(us, f, e.last);
  }

  lemma WindowIsBuffered(e: Entry, o: Options, buffer: seq<Update>, t: Time)
    requires OrderedLog(buffer, t)
    ensures forall u <- Window(e, o, buffer) :: u in buffer
  {
    WindowOfBuffer(e, o, buffer, t);
    HeardIsOrdered(buffer, e.conn, o.skipSelf, t);
    hide Window, Heard;
  }

  lemma ServedMerges(e: Entry, o: Options, s: State, before: seq<Message>)
    requires s.msg.Some? && e.hadFirst
    ensures Merged(before + ServedMessages(e, o, s)) ==
              Merged(before) + Filter(Fold(map[], Window(e, o, s.buffer)), o.masks)
  {
    hide Window, Fold;
    var us := Window(e, o, s.buffer);
    if us == [] {
      assert before + [] == before;
      FoldNothing(map[]);
      assert Filter(map[], o.masks) == map[];
      assert Merged(before) + map[] == Merged(before);
    } else {
      MergedSnoc(before, Filter(Fold(map[], us), o.masks));
    }
  }

  /** A masked delta extends the fields that it and the replica have of the whole. */
  lemma MaskedDeltaExtends(replica: Message, masks: seq<nat>, f: Feed, a: nat, m: nat, b: nat)
    requires a <= m <= b <= |f.onTime| && Narrows(f.masks, masks)
    requires SameFields(replica, ReplicaAt(f, m), f.masks)
    ensures SameFields(replica + Filter(Fold(map[], f.onTime[a..b]), masks), ReplicaAt(f, b), f.masks)
  {
    DeltaExtends(f.start, f.onTime, a, m, b);
    var delta := Fold(map[], f.onTime[a..b]);
    hide Fold, Filter, Narrows;
    FilterPlus(replica, Filter(delta, masks), f.masks);
    FilterTwice(delta, masks, f.masks);
    FilterPlus(Fold(f.start, f.onTime[..m]), delta, f.masks);
  }

  lemma DeltaKeys(us: seq<Update>, masks: seq<nat>, s: State, base: Message, log: seq<Update>)
    requires DataOf(s, base, log) && forall u <- us :: u in log
    ensures Filter(Fold(map[], us), masks).Keys <= Fields(s)
  {
    FoldKeysOfPart(map[], us, base, log, Fields(s));
    hide Fold;
  }

  /** The window, with where it lies in the feed, and in the log. */
  lemma WindowLies(e: Entry, o: Options, buffer: seq<Update>, log: seq<Update>, f: Feed, t: Time) returns (a: nat)
    requires Buffers(buffer, log) && OrderedLog(log, t) && SameHearing(o, f, e.conn, log)
    requires Aligned(Heard(buffer, e.conn, f.skipsOwn), f, e.last)
    ensures a <= Seen(f, e.last) <= Cut(f.onTime, NextTime(e, o))
    ensures Window(e, o, buffer) == f.onTime[a..Cut(f.onTime, NextTime(e, o))]
    ensures forall u <- Window(e, o, buffer) :: u in log
  {
    BufferOfLog(buffer, log, t);
    SameHeard(o, f, e.conn, log, buffer);
    hide Cut, Window, Seen, Heard, Aligned, Buffers, OrderedLog;
    a := WindowOfFeed(e, o, buffer, f, t);
    WindowIsBuffered(e, o, buffer, t);
  }

  lemma ServedIndex(e: Entry, o: Options, s: State, t: Time, f: Feed, a: nat)
    requires s.msg.Some? && e.hadFirst && a <= Seen(f, e.last) <= Cut(f.onTime, NextTime(e, o))
    requires Window(e, o, s.buffer) == f.onTime[a..Cut(f.onTime, NextTime(e, o))]
    requires LastOf(f, Seen(f, e.last), e.lastIndex)
    ensures LastOf(f, Cut(f.onTime, NextTime(e, o)), ServedEntry(e, o, s, t).lastIndex)
  {
    hide Window, Cut, Seen;
  }

  /** The window's delta takes the replica to the next time. */
  lemma WindowConverges(e: Entry, o: Options, s: State, t: Time, base: Message, log: seq<Update>, f: Feed,
                        before: seq<Message>)
    requires s.msg.Some? && DataOf(s, base, log) && OrderedLog(log, t) && e.hadFirst
    requires Narrows(f.masks, o.masks) && SameHearing(o, f, e.conn, log)
    requires Merged(before).Keys <= Fields(s) && Aligned(Heard(s.buffer, e.conn, f.skipsOwn), f, e.last)
    requires SameFields(Merged(before), ReplicaAt(f, Seen(f, e.last)), f.masks)
    requires LastOf(f, Seen(f, e.last), e.lastIndex)
    ensures var (n, replica) := (Cut(f.onTime, NextTime(e, o)), Merged(before + ServedMessages(e, o, s)));
            && replica.Keys <= Fields(s) && SameFields(replica, ReplicaAt(f, n), f.masks)
            && LastOf(f, n, ServedEntry(e, o, s, t).lastIndex)
  {
    assert Buffers(s.buffer, log);
    hide Cut, Fold, Merged, Buffers, Window, Seen, Heard, Aligned, ServedMessages, Narrows, SameFields, Filter, DataOf,
         OrderedLog, SameHearing, ServedEntry, ReplicaAt, LastOf;
    var a := WindowLies(e, o, s.buffer, log, f, t);
    ServedMerges(e, o, s, before);
    DeltaKeys(Window(e, o, s.buffer), o.masks, s, base, log);
    MaskedDeltaExtends(Merged(before), o.masks, f, a, Seen(f, e.last), Cut(f.onTime, NextTime(e, o)));
    ServedIndex(e, o, s, t, f, a);
  }

  lemma NextConverges(e: Entry, o: Options, s: State, t: Time, base: Message, log: seq<Update>, f: Feed,
                      before: seq<Message>)
    requires s.msg.Some? && DataOf(s, base, log) && OrderedLog(log, t) && e.hadFirst
    requires Narrows(f.masks, o.masks) && SameHearing(o, f, e.conn, log)
    requires Converged(e, Merged(before), s, base, log, f)
    ensures Converged(ServedEntry(e, o, s, t), Merged(before + ServedMessages(e, o, s)), s, base, log, FannedOut(f))
  {
    SortedHeard(s.buffer, log, t, e.conn, f.skipsOwn);
    hide Cut, Sorted, Fold, Merged, Buffers, Window, Seen, Aligned, Heard, OrderedLog, Narrows, SameFields, DataOf,
         SameHearing, ServedMessages, ReplicaAt, LastOf;
    WindowConverges(e, o, s, t, base, log, f, before);
    FanOutAligns(Heard(s.buffer, e.conn, f.skipsOwn), f, e.last, NextTime(e, o));
  }

  lemma SortedHeard(buffer: seq<Update>, log: seq<Update>, t: Time, conn: Conn, skipsOwn: bool)
    requires Buffers(buffer, log) && OrderedLog(log, t)
    ensures Sorted(Heard(buffer, conn, skipsOwn))
  {
    BufferOfLog(buffer, log, t);
    HeardIsOrdered(buffer, conn, skipsOwn, t);
  }

  /** Serving one due subscriber keeps its replica converged, unless a first fan-out leaves out fields. */
  lemma ServingConverges(e: Entry, o: Options, s: State, t: Time, base: Message, log: seq<Update>, f: Feed,
                         before: seq<Message>)
    requires s.msg.Some? && DataOf(s, base, log) && OrderedLog(log, t)
    requires Narrows(f.masks, o.masks) && SameHearing(o, f, e.conn, log) && Due(e, o, t)
    requires !e.hadFirst ==> Filter(s.msg.value, o.masks) == s.msg.value
    requires Converged(e, Merged(before), s, base, log, f)
    ensures Converged(ServedEntry(e, o, s, t), Merged(before + ServedMessages(e, o, s)), s, base, log,
                      Served(e, s, f, t))
  {
    hide Converged, Merged, Narrows, DataOf, SameHearing, ServedMessages, ServedEntry, OrderedLog, Filter;
    if e.hadFirst {
      NextConverges(e, o, s, t, base, log, f, before);
    } else {
      FirstConverges(e, o, s, t, base, log, f, before);
    }
  }

  /** The first fan-out sends the whole data. */
  lemma FirstReplica(e: Entry, o: Options, s: State, before: seq<Message>)
    requires s.msg.Some? && Filter(s.msg.value, o.masks) == s.msg.value
    requires !e.hadFirst && Merged(before).Keys <= s.msg.value.Keys
    ensures Merged(before + ServedMessages(e, o, s)) == s.msg.value
  {
    MergedSnoc(before, s.msg.value);
    MergeOverSubset(Merged(before), s.msg.value);
    hide Filter;
  }

  /** A replica that starts now, from any data without fields that the channel data has not. */
  lemma StartConverges(e: Entry, start: Message, s: State, base: Message, log: seq<Update>, t: Time, f: Feed)
    requires Buffers(s.buffer, log) && OrderedLog(log, t) && start.Keys <= Fields(s)
    requires e.hadFirst && (f.skipsOwn || f.skipsFirst)
    ensures Converged(e, start, s, base, log, Started(f, start, Heard(s.buffer, e.conn, f.skipsOwn), e.last))
  {
    hide Sorted, Fold, Buffers, Aligned, Heard, Pending, OrderedLog, Seen, Filter, Below;
    var us := Heard(s.buffer, e.conn, f.skipsOwn);
    SortedHeard(s.buffer, log, t, e.conn, f.skipsOwn);
    StartAligns(f, start, us, e.last);
    PendingIsHeard(s.buffer, log, t, e.conn, f.skipsOwn, e.last);
    NothingSeen(Started(f, start, us, e.last));
    hide ReplicaAt, LastOf;
  }

  lemma NothingSeen(f: Feed)
    ensures ReplicaAt(f, 0) == f.start && forall index :: LastOf(f, 0, index)
  {
    FoldNothing(f.start);
    assert f.onTime[..0] == [];
  }

  lemma PendingIsHeard(buffer: seq<Update>, log: seq<Update>, t: Time, conn: Conn, skipsOwn: bool, last: Time)
    requires Buffers(buffer, log) && OrderedLog(log, t)
    ensures forall u <- Pending(Heard(buffer, conn, skipsOwn), last) :: u in log && !(skipsOwn && u.sender == conn)
  {
    BufferOfLog(buffer, log, t);
    HeardIsOrdered(buffer, conn, skipsOwn, t);
    PendingIsNotBelow(Heard(buffer, conn, skipsOwn), last);
    hide Pending, Heard;
  }

  lemma FirstConverges(e: Entry, o: Options, s: State, t: Time, base: Message, log: seq<Update>, f: Feed,
                       before: seq<Message>)
    requires s.msg.Some? && DataOf(s, base, log) && OrderedLog(log, t)
    requires Filter(s.msg.value, o.masks) == s.msg.value && !e.hadFirst
    requires Converged(e, Merged(before), s, base, log, f)
    ensures Converged(ServedEntry(e, o, s, t), Merged(before + ServedMessages(e, o, s)), s, base, log,
                      Served(e, s, f, t))
  {
    hide Cut, Sorted, Fold, Merged, Aligned, ServedMessages, OrderedLog, Seen, Buffers, Filter;
    FirstReplica(e, o, s, before);
    if f.skipsOwn {
      StartConverges(ServedEntry(e, o, s, t), s.msg.value, s, base, log, t, f);
      hide Converged;
    } else {
      FullSendAligns(s.buffer, log, f, t);
    }
  }

  lemma FullSendAligns(buffer: seq<Update>, log: seq<Update>, f: Feed, t: Time)
    requires Buffers(buffer, log) && OrderedLog(log, t) && f.onTime == log
    ensures Aligned(buffer, FannedOut(f), t) && Seen(FannedOut(f), t) == |log| && log[..|log|] == log
  {
    CutOfAll(log, t);
    FirstFanOutAligns(buffer, log, f, t);
  }

  lemma {:induction false} FoldKeys(base: Message, us: seq<Update>, u: Update)
    requires u in us
    ensures u.msg.Keys <= Fold(base, us).Keys
  {
    if us[|us| - 1] != u {
      FoldKeys(base, us[..|us| - 1], u);
    }
  }

  /** Merging some of the updates of a log sets no field that merging the log does not set. */
  lemma {:induction false} FoldKeysOfPart(start: Message, us: seq<Update>, base: Message, log: seq<Update>,
                                          fields: set<nat>)
    requires start.Keys <= fields && (forall u <- us :: u in log)
    requires log != [] ==> fields == Fold(base, log).Keys
    ensures Fold(start, us).Keys <= fields
  {
    if us != [] {
      FoldKeysOfPart(start, us[..|us| - 1], base, log, fields);
      assert us[|us| - 1] in log;
      FoldKeys(base, log, us[|us| - 1]);
    }
  }

  lemma FoldNothing(base: Message)
    ensures Fold(base, []) == base
  {
  }

  lemma CutOfAll(log: seq<Update>, t: Time)
    requires OrderedLog(log, t)
    ensures Cut(log, t) == |log|
  {
    if log != [] {
      assert log[|log| - 1] in log;
    }
  }

  lemma {:induction false} DrainConverges(e: Entry, o: Options, s: State, t: Time, base: Message, log: seq<Update>,
                                          f: Feed, before: seq<Message>)
    requires s.msg.Some? && DataOf(s, base, log) && OrderedLog(log, t)
    requires Narrows(f.masks, o.masks) && SameHearing(o, f, e.conn, log) && (Due(e, o, t) ==> o.intervalMs > 0)
    requires !e.hadFirst && Due(e, o, t) ==> Filter(s.msg.value, o.masks) == s.msg.value
    requires Converged(e, Merged(before), s, base, log, f)
    ensures var (d, f') := (DrainedEntry(e, o, s, t), if Due(e, o, t) then Served(e, s, f, t) else f);
            Converged(d, Merged(before + DrainedMessages(e, o, s, t)), s, base, log, f')
    decreases Overdue(e, o, t)
  {
    hide Cut, Sorted, Fold, Merged, Buffers, Window, Converged, DataOf, ServedMessages, Narrows, OrderedLog, Filter;
    if !Due(e, o, t) {
      assert before + [] == before;
    } else {
      ServingConverges(e, o, s, t, base, log, f, before);
      OverdueDecreases(e, o, s, t);
      var e', f', now := ServedEntry(e, o, s, t), Served(e, s, f, t), ServedMessages(e, o, s);
      DrainConverges(e', o, s, t, base, log, f', before + now);
      assert (before + now) + DrainedMessages(e', o, s, t) == before + (now + DrainedMessages(e', o, s, t));
      if Due(e', o, t) {
        assert Served(e', s, f', t) == f';
      }
    }
  }

  // ---- an example ----

  /**
   Two updates of one field at the time of a first fan-out, the later one the subscriber's own. The full data has that;
   the next window repeats the other's, and sets the replica back.
   */
  lemma OwnUpdateIsOverridden()
    ensures var us := [Update(map[1 := 10], 5, 2, 1), Update(map[1 := 20], 5, 1, 2)];
            var next := Window(Entry(1, 0, true, 5, 2), Options(READ_ACCESS, [], 20, 0, true, false), us);
            && Fold(map[], us) == map[1 := 20] && next == [us[0]]
            && Merged([Fold(map[], us), Fold(map[], next)]) == map[1 := 10]
  {
    var other, own := Update(map[1 := 10], 5, 2, 1), Update(map[1 := 20], 5, 1, 2);
    var full: Message, delta: Message := own.msg, other.msg;
    assert Fold(map[], [other, own]) == full && Fold(map[], [other]) == delta by {
      FoldSnoc(map[], [], other);
      FoldSnoc(map[], [other], own);
      assert [] + [other] == [other] && [other] + [own] == [other, own];
    }
    assert Merged([full, delta]) == delta by {
      MergedSnoc([], full);
      MergedSnoc([full], delta);
      assert [] + [full] == [full] && [full] + [delta] == [full, delta];
    }
    hide Fold, Merged;
  }
}

/** The updates meant for one subscriber, in the order it is to get them, and how many of them it has been sent. */
module Feeds {
  import opened Prelude
  import opened FanOut
  import opened Windows

  /**
   For one subscriber: the data that its replica starts from, the updates meant for it since, and how many
   of these there were at its last fan-out. It may skip its own updates, or its first fan-out. Of the masks it
   has had these are the narrowest, and this is the interval that it subscribed with to initialized data, or 0.
   */
  datatype Feed = Feed(
    start: Message,
    onTime: seq<Update>,
    heard: nat,
    skipsOwn: bool,
    skipsFirst: bool,
    masks: seq<nat>,
    intervalMs: nat)

  /** An update that arrives now with this time is late for the subscriber. */
  predicate Late(e: Entry, t: Time) {
    e.hadFirst && t < e.last
  }

  function Arrived(f: Feed, u: Update): Feed {
    f.(onTime := f.onTime + [u])
  }

  function FannedOut(f: Feed): Feed {
    f.(heard := |f.onTime|)
  }

  /** A replica starts: what is buffered from the time of the fan-out on will be sent next. */
  function Started(f: Feed, start: Message, buffer: seq<Update>, last: Time): Feed {
    f.(start := start, onTime := Pending(buffer, last), heard := 0)
  }

  /** The buffer gives up its oldest update, which leaves the feed if all that is buffered is still to be sent. */
  function Trimmed(f: Feed, buffered: nat, last: Time): Feed {
    var n := Seen(f, last);
    if 0 < buffered == |f.onTime| - n then
      f.(onTime := RemoveAt(f.onTime, n), heard := if n < f.heard then f.heard - 1 else f.heard)
    else f
  }

  /** How many updates of a sorted log arrived before `t`. */
  function Below(log: seq<Update>, t: Time): (n: nat)
    ensures n <= |log|
  {
    Cut(log, t - 1)
  }

  /** What is buffered from the time of the last fan-out on. */
  function Pending(buffer: seq<Update>, last: Time): (us: seq<Update>)
    ensures |us| == |buffer| - Below(buffer, last)
  {
    From(buffer, Below(buffer, last))
  }

  /** How many updates the subscriber has been sent: those up to its last fan-out, in time and in arrival. */
  function Seen(f: Feed, last: Time): (n: nat)
    ensures n <= f.heard && n <= Cut(f.onTime, last) <= |f.onTime|
  {
    if f.heard < Cut(f.onTime, last) then f.heard else Cut(f.onTime, last)
  }

  /** Where in the feed the pending updates begin. */
  function PendingAt(buffer: seq<Update>, f: Feed, last: Time): int {
    |f.onTime| - |Pending(buffer, last)|
  }

  /** In order, and what came after the last fan-out has no earlier time. */
  ghost predicate InTime(f: Feed, last: Time) {
    && Sorted(f.onTime) && f.heard <= |f.onTime|
    && forall i | f.heard <= i < |f.onTime| :: last <= f.onTime[i].arrivalTime
  }

  /** The feed ends in the pending updates, and everything before them has been sent. */
  ghost predicate EndsPending(buffer: seq<Update>, f: Feed, last: Time) {
    && 0 <= PendingAt(buffer, f, last) <= Seen(f, last)
    && From(f.onTime, PendingAt(buffer, f, last)) == Pending(buffer, last)
  }

  ghost predicate Aligned(buffer: seq<Update>, f: Feed, last: Time) {
    InTime(f, last) && EndsPending(buffer, f, last)
  }

  /** Nothing of this depends on more than the updates and how many were heard. */
  lemma SameUpdates(buffer: seq<Update>, f: Feed, f': Feed, last: Time)
    requires f'.onTime == f.onTime && f'.heard == f.heard
    ensures Seen(f', last) == Seen(f, last) && (Aligned(buffer, f', last) <==> Aligned(buffer, f, last))
  {
  }

  // ---- cuts of ends ----

  lemma CutOfEnd(us: seq<Update>, p: nat, t: Time)
    requires Sorted(us) && p <= |us|
    ensures Sorted(From(us, p))
    ensures Cut(From(us, p), t) == if p <= Cut(us, t) then Cut(us, t) - p else 0
  {
    var end := From(us, p);
    assert forall i | 0 <= i < |end| :: end[i] == us[p + i];
    CutSplits(us, t);
    CutSplits(end, t);
    var m, n := Cut(end, t), if p <= Cut(us, t) then Cut(us, t) - p else 0;
    assert m < |end| ==> (end[m].arrivalTime <= t <==> m < n);
    assert n < |end| ==> (end[n].arrivalTime <= t <==> n < m);
  }

  lemma SortedEnd(us: seq<Update>, p: nat)
    requires Sorted(us) && p <= |us|
    ensures Sorted(From(us, p))
  {
    CutOfEnd(us, p, 0);
  }

  lemma PendingIsNotBelow(buffer: seq<Update>, last: Time)
    requires Sorted(buffer)
    ensures Sorted(Pending(buffer, last)) && forall u <- Pending(buffer, last) :: last <= u.arrivalTime && u in buffer
  {
    SortedEnd(buffer, Below(buffer, last));
    CutSplits(buffer, last - 1);
    var us, n := Pending(buffer, last), Below(buffer, last);
    forall u | u in us ensures last <= u.arrivalTime && u in buffer {
      var i :| 0 <= i < |us| && us[i] == u;
      assert u == buffer[n + i];
    }
  }

  /** Two sorted sequences with the same end are cut at the same place of it. */
  lemma EndsMatch(a: seq<Update>, p: nat, b: seq<Update>, n: nat, t: Time)
    requires Sorted(a) && Sorted(b) && p <= Cut(a, t) && n <= Cut(b, t) && From(a, p) == From(b, n)
    ensures Cut(a, t) - p == Cut(b, t) - n && From(a, Cut(a, t)) == From(b, Cut(b, t))
    ensures a[p..Cut(a, t)] == b[n..Cut(b, t)]
  {
    hide Cut, Sorted, From;
    CutOfEnd(a, p, t);
    CutOfEnd(b, n, t);
    var k := Cut(a, t) - p;
    FromFrom(a, p, k);
    FromFrom(b, n, k);
    FrontOfEnd(a, p, k);
    FrontOfEnd(b, n, k);
  }

  lemma FrontOfEnd(us: seq<Update>, p: nat, k: nat)
    requires p + k <= |us|
    ensures From(us, p)[..k] == us[p..p + k]
  {
  }

  lemma PendingSnoc(buffer: seq<Update>, last: Time, u: Update)
    requires last <= u.arrivalTime
    ensures Pending(buffer + [u], last) == Pending(buffer, last) + [u]
  {
    CutSnoc(buffer, u, last - 1);
    FromSnoc(buffer, u, Below(buffer, last));
  }

  lemma CutSnoc(log: seq<Update>, u: Update, t: Time)
    ensures Cut(log + [u], t) == if u.arrivalTime <= t then |log| + 1 else Cut(log, t)
  {
    assert (log + [u])[..|log|] == log;
  }

  lemma SortedSnoc(log: seq<Update>, u: Update)
    requires Sorted(log) && forall v <- log :: v.arrivalTime <= u.arrivalTime
    ensures Sorted(log + [u])
  {
    var all := log + [u];
    forall i, j | 0 <= i < j < |all| ensures all[i].arrivalTime <= all[j].arrivalTime {
      assert all[i] == log[i] && log[i] in log;
    }
  }

  lemma FromSnoc(log: seq<Update>, u: Update, n: nat)
    requires n <= |log|
    ensures From(log + [u], n) == From(log, n) + [u]
  {
  }

  // ---- fan-outs ----

  lemma StartAligns(f: Feed, start: Message, buffer: seq<Update>, last: Time)
    requires Sorted(buffer)
    ensures var f' := Started(f, start, buffer, last); Aligned(buffer, f', last) && Seen(f', last) == 0
  {
    PendingIsNotBelow(buffer, last);
    var us := Pending(buffer, last);
    assert forall i | 0 <= i < |us| :: us[i] in us;
    assert From(us, 0) == us;
  }

  /** A fan-out up to a later time sends everything up to it. */
  lemma FanOutAligns(buffer: seq<Update>, f: Feed, last: Time, next: Time)
    requires Aligned(buffer, f, last) && Sorted(buffer) && last <= next
    ensures Aligned(buffer, FannedOut(f), next) && Seen(FannedOut(f), next) == Cut(f.onTime, next)
  {
    hide Cut, Sorted, Pending, From;
    if last < next {
      LaterPending(buffer, f, last, next);
    }
    CutMonotone(f.onTime, next - 1, next);
  }

  /** The updates pending later are the end of those pending now. */
  lemma LaterPending(buffer: seq<Update>, f: Feed, last: Time, next: Time)
    requires Aligned(buffer, f, last) && Sorted(buffer) && last < next
    ensures PendingAt(buffer, f, next) == Below(f.onTime, next)
    ensures From(f.onTime, PendingAt(buffer, f, next)) == Pending(buffer, next)
  {
    CutMonotone(buffer, last - 1, next - 1);
    CutMonotone(f.onTime, last, next - 1);
    hide Cut, Sorted, From;
    EndsMatch(f.onTime, PendingAt(buffer, f, last), buffer, Below(buffer, last), next - 1);
  }

  /** At the first fan-out everything is sent. */
  lemma FirstFanOutAligns(buffer: seq<Update>, log: seq<Update>, f: Feed, t: Time)
    requires Sorted(log) && f.onTime == log && Cut(log, t) == |log|
    requires |buffer| <= |log| && buffer == From(log, |log| - |buffer|)
    ensures Aligned(buffer, FannedOut(f), t) && Seen(FannedOut(f), t) == |log|
  {
    FromFrom(log, |log| - |buffer|, Below(buffer, t));
    hide Cut, Sorted;
  }

  /** The part of the buffer between the last fan-out and the next is an end of what is to be sent up to then. */
  lemma WindowOfPending(buffer: seq<Update>, f: Feed, last: Time, next: Time)
    requires Aligned(buffer, f, last) && Sorted(buffer) && last <= next
    ensures Below(buffer, last) <= Cut(buffer, next)
    ensures PendingAt(buffer, f, last) <= Seen(f, last) <= Cut(f.onTime, next)
    ensures buffer[Below(buffer, last)..Cut(buffer, next)] == f.onTime[PendingAt(buffer, f, last)..Cut(f.onTime, next)]
  {
    CutMonotone(f.onTime, last, next);
    CutMonotone(buffer, last - 1, next);
    hide Cut, Sorted, From;
    EndsMatch(f.onTime, PendingAt(buffer, f, last), buffer, Below(buffer, last), next);
  }

  // ---- updates ----

  /** A late update is nothing to the subscriber. */
  lemma LateAligns(buffer: seq<Update>, f: Feed, last: Time, u: Update)
    requires Aligned(buffer, f, last) && u.arrivalTime < last && forall v <- buffer :: v.arrivalTime <= u.arrivalTime
    ensures Aligned(buffer + [u], f, last)
  {
    CutSnoc(buffer, u, last - 1);
    assert Below(buffer, last) == |buffer| by {
      if buffer != [] { assert buffer[|buffer| - 1] in buffer; }
    }
    assert Pending(buffer, last) == [] == Pending(buffer + [u], last);
    hide Cut, Sorted, Pending;
  }

  /** An update in time is one more that the subscriber has still to get. */
  lemma ArrivalAligns(buffer: seq<Update>, f: Feed, last: Time, u: Update)
    requires Aligned(buffer, f, last) && last <= u.arrivalTime
    requires forall v <- f.onTime :: v.arrivalTime <= u.arrivalTime
    ensures Aligned(buffer + [u], Arrived(f, u), last)
    ensures Seen(Arrived(f, u), last) == Seen(f, last)
  {
    assert Arrived(f, u).onTime == f.onTime + [u];
    ArrivalIsSeenLater(f, last, u);
    ArrivalIsInTime(f, last, u);
    hide InTime, Seen, Sorted;
    PendingSnoc(buffer, last, u);
    FromSnoc(f.onTime, u, PendingAt(buffer, f, last));
    hide From, Pending;
  }

  lemma ArrivalIsInTime(f: Feed, last: Time, u: Update)
    requires InTime(f, last) && last <= u.arrivalTime && forall v <- f.onTime :: v.arrivalTime <= u.arrivalTime
    ensures InTime(Arrived(f, u), last)
  {
    SortedSnoc(f.onTime, u);
    hide Sorted;
  }

  lemma ArrivalIsSeenLater(f: Feed, last: Time, u: Update)
    requires f.heard <= |f.onTime| && last <= u.arrivalTime
    requires forall v <- f.onTime :: v.arrivalTime <= u.arrivalTime
    ensures Seen(Arrived(f, u), last) == Seen(f, last)
  {
    CutSnoc(f.onTime, u, last);
    if u.arrivalTime <= last && f.onTime != [] {
      assert f.onTime[|f.onTime| - 1] in f.onTime;
    }
  }

  // ---- trimming ----

  /**
   The oldest buffered update is still to be sent iff it is newer than the last fan-out, or as new, and all that
   is buffered came after that fan-out.
   */
  lemma OldestIsUnsentIff(buffer: seq<Update>, f: Feed, last: Time)
    requires Aligned(buffer, f, last) && Sorted(buffer) && buffer != []
    ensures |f.onTime| - Seen(f, last) == |buffer| <==>
            || last < buffer[0].arrivalTime
            || (last == buffer[0].arrivalTime && f.heard + |buffer| <= |f.onTime|)
  {
    var p, n := PendingAt(buffer, f, last), Below(buffer, last);
    CutSplits(buffer, last - 1);
    CutSplits(f.onTime, last);
    if n == 0 {
      assert Pending(buffer, last)[0] == buffer[0];
      assert From(f.onTime, p)[0] == f.onTime[p];
    }
    hide Cut, Sorted, From, Pending;
  }

  lemma TrimAligns(buffer: seq<Update>, f: Feed, last: Time)
    requires Aligned(buffer, f, last) && Sorted(buffer) && buffer != []
    ensures var f' := Trimmed(f, |buffer|, last);
            && Aligned(buffer[1..], f', last) && Seen(f', last) == Seen(f, last)
            && f'.onTime[..Seen(f', last)] == f.onTime[..Seen(f, last)]
            && forall u <- f'.onTime :: u in f.onTime
  {
    var n := Seen(f, last);
    CutOfEnd(buffer, 1, last - 1);
    assert From(buffer, 1) == buffer[1..];
    if |buffer| == |f.onTime| - n {
      UnsentIsTrimmed(buffer, f, last);
    } else {
      PendingAfterTrim(buffer, f, last);
    }
  }

  lemma EndWithout(us: seq<Update>, n: nat)
    requires n < |us|
    ensures From(RemoveAt(us, n), n) == From(us, n + 1) && RemoveAt(us, n)[..n] == us[..n]
    ensures forall i | 0 <= i < |us| - 1 :: RemoveAt(us, n)[i] == us[if i < n then i else i + 1]
    ensures forall u <- RemoveAt(us, n) :: u in us
  {
  }

  /** The oldest update is the first to be sent, and is left out. */
  lemma UnsentIsTrimmed(buffer: seq<Update>, f: Feed, last: Time)
    requires Aligned(buffer, f, last) && Sorted(buffer) && 0 < |buffer| == |f.onTime| - Seen(f, last)
    ensures var f' := Trimmed(f, |buffer|, last);
            && Aligned(buffer[1..], f', last) && Seen(f', last) == Seen(f, last)
            && f'.onTime[..Seen(f', last)] == f.onTime[..Seen(f, last)]
            && forall u <- f'.onTime :: u in f.onTime
  {
    var n := Seen(f, last);
    hide InTime, Seen, Cut, Sorted, RemoveAt, Pending, From;
    assert Below(buffer, last) == 0 && From(f.onTime, n) == Pending(buffer, last);
    hide Below;
    PendingWithoutOldest(buffer, last);
    TrimmedIsInTime(f, last, |buffer|);
    EndWithout(f.onTime, n);
    FromFrom(f.onTime, n, 1);
  }

  lemma PendingWithoutOldest(buffer: seq<Update>, last: Time)
    requires Sorted(buffer) && buffer != []
    ensures Pending(buffer[1..], last) ==
              if Below(buffer, last) == 0 then From(Pending(buffer, last), 1) else Pending(buffer, last)
    ensures Below(buffer, last) == 0 ==> Pending(buffer, last) == buffer
  {
    CutOfEnd(buffer, 1, last - 1);
    OneLess(buffer);
    assert From(buffer, 0) == buffer;
    hide Cut, Sorted;
    if Below(buffer, last) > 0 {
      FromFrom(buffer, 1, Below(buffer, last) - 1);
    }
  }

  lemma OneLess(buffer: seq<Update>)
    requires buffer != []
    ensures From(buffer, 1) == buffer[1..] == From(buffer[1..], 0)
  {
  }

  lemma TrimmedIsInTime(f: Feed, last: Time, buffered: nat)
    requires InTime(f, last) && 0 < buffered == |f.onTime| - Seen(f, last)
    ensures var f' := Trimmed(f, buffered, last); InTime(f', last) && Seen(f', last) == Seen(f, last)
  {
    var n := Seen(f, last);
    EndWithout(f.onTime, n);
    CutWithout(f.onTime, n, last);
    hide RemoveAt, Cut, Sorted;
  }

  /** Taking out an element at or behind a cut, or at the end of what was heard. */
  lemma CutWithout(us: seq<Update>, n: nat, t: Time)
    requires Sorted(us) && n < |us|
    ensures Sorted(RemoveAt(us, n)) && Cut(RemoveAt(us, n), t) == if n < Cut(us, t) then Cut(us, t) - 1 else Cut(us, t)
  {
    var us' := RemoveAt(us, n);
    EndWithout(us, n);
    hide RemoveAt;
    CutSplits(us, t);
    CutSplits(us', t);
    var m, k := Cut(us', t), if n < Cut(us, t) then Cut(us, t) - 1 else Cut(us, t);
    assert m < |us'| ==> (us'[m].arrivalTime <= t <==> m < k);
    assert k < |us'| ==> (us'[k].arrivalTime <= t <==> k < m);
  }

  lemma PendingAfterTrim(buffer: seq<Update>, f: Feed, last: Time)
    requires Aligned(buffer, f, last) && Sorted(buffer) && buffer != [] && |buffer| != |f.onTime| - Seen(f, last)
    ensures Aligned(buffer[1..], f, last)
  {
    PendingWithoutOldest(buffer, last);
    hide InTime, Seen, Pending;
    if Below(buffer, last) == 0 {
      FromFrom(f.onTime, PendingAt(buffer, f, last), 1);
    }
    hide Below, From;
  }
}

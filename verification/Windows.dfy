/** Which updates a fan-out window takes, and when it takes all it should. */
module Windows {
  import opened Prelude
  import opened FanOut

  ghost predicate Sorted(us: seq<Update>) {
    forall i, j | 0 <= i < j < |us| :: us[i].arrivalTime <= us[j].arrivalTime
  }

  /** All updates of the window, whatever their order in the buffer. */
  function InWindow(buffer: seq<Update>, i: nat, low: Time, high: Time, conn: Conn, skipSelf: bool): seq<Update>
    requires i <= |buffer|
    decreases |buffer| - i
  {
    if i == |buffer| then []
    else
      var later := InWindow(buffer, i + 1, low, high, conn, skipSelf);
      if !Skipped(buffer[i], conn, skipSelf) && low <= buffer[i].arrivalTime <= high then [buffer[i]] + later else later
  }

  /** An update that arrived before the window's lower bound is not taken, now or later. */
  lemma {:induction false} SelectBounds(buffer: seq<Update>, i: nat, low: Time, high: Time, conn: Conn, skipSelf: bool)
    requires i <= |buffer|
    ensures forall u <- Select(buffer, i, low, high, conn, skipSelf) :: low <= u.arrivalTime <= high
    decreases |buffer| - i
  {
    if i < |buffer| {
      var u := buffer[i];
      if !Skipped(u, conn, skipSelf) && low <= u.arrivalTime <= high {
        SelectBounds(buffer, i + 1, u.arrivalTime, high, conn, skipSelf);
      } else {
        SelectBounds(buffer, i + 1, low, high, conn, skipSelf);
      }
    }
  }

  /** Raising the lower bound changes nothing unless the window has something below it. */
  lemma {:induction false} InWindowRaised(buffer: seq<Update>, i: nat, low: Time, raised: Time, high: Time,
                                          conn: Conn, skipSelf: bool)
    requires i <= |buffer| && low <= raised
    requires forall u <- InWindow(buffer, i, low, high, conn, skipSelf) :: raised <= u.arrivalTime
    ensures InWindow(buffer, i, raised, high, conn, skipSelf) == InWindow(buffer, i, low, high, conn, skipSelf)
    decreases |buffer| - i
  {
    if i < |buffer| {
      var later := InWindow(buffer, i + 1, low, high, conn, skipSelf);
      var all := InWindow(buffer, i, low, high, conn, skipSelf);
      assert all == later || all == [buffer[i]] + later;
      forall u | u in later ensures raised <= u.arrivalTime {
        assert u in all;
      }
      InWindowRaised(buffer, i + 1, low, raised, high, conn, skipSelf);
    }
  }

  lemma SortedCons(u: Update, us: seq<Update>)
    ensures Sorted([u] + us) <==> Sorted(us) && forall v <- us :: u.arrivalTime <= v.arrivalTime
  {
    var all := [u] + us;
    if Sorted(all) {
      forall i, j | 0 <= i < j < |us| ensures us[i].arrivalTime <= us[j].arrivalTime {
        assert all[i + 1] == us[i] && all[j + 1] == us[j];
      }
      forall v | v in us ensures u.arrivalTime <= v.arrivalTime {
        var j :| 0 <= j < |us| && us[j] == v;
        assert all[0] == u && all[j + 1] == v;
      }
    }
  }

  /**
   The scan's moving lower bound loses updates exactly when those of the window are out of
   order in the buffer.
   */
  lemma {:induction false} SelectTakesAllIff(buffer: seq<Update>, i: nat, low: Time, high: Time, conn: Conn,
                                             skipSelf: bool)
    requires i <= |buffer|
    ensures Select(buffer, i, low, high, conn, skipSelf) == InWindow(buffer, i, low, high, conn, skipSelf)
       <==> Sorted(InWindow(buffer, i, low, high, conn, skipSelf))
    decreases |buffer| - i
  {
    if i < |buffer| {
      var u := buffer[i];
      if !Skipped(u, conn, skipSelf) && low <= u.arrivalTime <= high {
        var later := InWindow(buffer, i + 1, low, high, conn, skipSelf);
        var taken := Select(buffer, i + 1, u.arrivalTime, high, conn, skipSelf);
        SortedCons(u, later);
        SelectTakesAllIff(buffer, i + 1, u.arrivalTime, high, conn, skipSelf);
        SelectBounds(buffer, i + 1, u.arrivalTime, high, conn, skipSelf);
        if forall v <- later :: u.arrivalTime <= v.arrivalTime {
          InWindowRaised(buffer, i + 1, low, u.arrivalTime, high, conn, skipSelf);
        }
        assert ([u] + taken)[1..] == taken && ([u] + later)[1..] == later;
      } else {
        SelectTakesAllIff(buffer, i + 1, low, high, conn, skipSelf);
      }
    }
  }

  // ------------------------------------------------------------ sorted logs

  /** How many updates of a sorted log arrived at `t` or before. */
  function Cut(log: seq<Update>, t: Time): (n: nat)
    ensures n <= |log|
  {
    if log == [] then 0
    else if log[|log| - 1].arrivalTime <= t then |log|
    else Cut(log[..|log| - 1], t)
  }

  lemma {:induction false} CutSplits(log: seq<Update>, t: Time)
    requires Sorted(log)
    ensures forall i | 0 <= i < |log| :: log[i].arrivalTime <= t <==> i < Cut(log, t)
  {
    if log != [] && log[|log| - 1].arrivalTime > t {
      var front := log[..|log| - 1];
      CutSplits(front, t);
      assert forall i | 0 <= i < |front| :: front[i] == log[i];
    }
  }

  lemma CutMonotone(log: seq<Update>, t: Time, u: Time)
    requires Sorted(log) && t <= u
    ensures Cut(log, t) <= Cut(log, u)
  {
    CutSplits(log, t);
    CutSplits(log, u);
  }

  // ------------------------------------------------ without one's own updates

  /** The updates that others have sent. */
  function Others(us: seq<Update>, conn: Conn): seq<Update> {
    if us == [] then []
    else
      var rest := Others(us[1..], conn);
      if us[0].sender == conn then rest else [us[0]] + rest
  }

  /** The updates that a subscriber gets at all. */
  function Heard(us: seq<Update>, conn: Conn, skipsOwn: bool): seq<Update> {
    if skipsOwn then Others(us, conn) else us
  }

  lemma {:induction false} OthersConcat(a: seq<Update>, b: seq<Update>, conn: Conn)
    ensures Others(a + b, conn) == Others(a, conn) + Others(b, conn)
  {
    if a == [] {
      assert a + b == b;
    } else {
      assert (a + b)[1..] == a[1..] + b;
      OthersConcat(a[1..], b, conn);
    }
  }

  lemma {:induction false} OthersAre(us: seq<Update>, conn: Conn)
    ensures forall u :: u in Others(us, conn) <==> u in us && u.sender != conn
    ensures Sorted(us) ==> Sorted(Others(us, conn))
  {
    if us != [] {
      var rest := Others(us[1..], conn);
      OthersAre(us[1..], conn);
      assert us == [us[0]] + us[1..];
      SortedCons(us[0], us[1..]);
      SortedCons(us[0], rest);
    }
  }

  lemma {:induction false} NoneOfOnesOwn(us: seq<Update>, conn: Conn)
    requires forall u <- us :: u.sender != conn
    ensures Others(us, conn) == us
  {
    if us != [] {
      NoneOfOnesOwn(us[1..], conn);
    }
  }

  lemma CutCons(u: Update, us: seq<Update>, t: Time)
    requires Sorted([u] + us)
    ensures Cut([u] + us, t) == if u.arrivalTime <= t then 1 + Cut(us, t) else 0
    ensures t < u.arrivalTime ==> Cut(us, t) == 0
  {
    SortedCons(u, us);
    CutSplits([u] + us, t);
    CutSplits(us, t);
    var n, m := Cut([u] + us, t), Cut(us, t);
    assert forall i | 0 <= i < |us| :: ([u] + us)[i + 1] == us[i];
    assert ([u] + us)[0] == u;
    assert m < |us| ==> (us[m].arrivalTime <= t <==> m + 1 < n);
    assert 1 <= n <= |us| ==> (us[n - 1].arrivalTime <= t <==> n - 1 < m);
    assert 0 < |us| ==> (us[0].arrivalTime <= t <==> 0 < m) && u.arrivalTime <= us[0].arrivalTime;
  }

  /** The contiguous part between two times, both included. */
  function Between(us: seq<Update>, low: Time, high: Time): seq<Update> {
    if Cut(us, low - 1) <= Cut(us, high) then us[Cut(us, low - 1)..Cut(us, high)] else []
  }

  lemma BetweenCons(u: Update, us: seq<Update>, low: Time, high: Time)
    requires Sorted([u] + us)
    ensures Between([u] + us, low, high) ==
              if low <= u.arrivalTime <= high then [u] + Between(us, u.arrivalTime, high) else Between(us, low, high)
  {
    CutCons(u, us, low - 1);
    CutCons(u, us, high);
    CutCons(u, us, u.arrivalTime - 1);
    hide Cut, Sorted;
    var n, m := Cut(us, low - 1), Cut(us, high);
    if low <= u.arrivalTime <= high {
      ConsSlice(u, us, 0, m);
    } else if u.arrivalTime < low && n <= m && u.arrivalTime <= high {
      ConsSlice(u, us, n, m);
    }
  }

  lemma ConsSlice(u: Update, us: seq<Update>, a: nat, b: nat)
    requires a <= b <= |us|
    ensures ([u] + us)[0..1 + b] == [u] + us[0..b]
    ensures ([u] + us)[1 + a..1 + b] == us[a..b]
  {
  }

  lemma HeardFromNext(buffer: seq<Update>, i: nat, conn: Conn, skipSelf: bool)
    requires Sorted(buffer) && i < |buffer|
    ensures var (u, rest) := (buffer[i], Heard(From(buffer, i + 1), conn, skipSelf));
            && Heard(From(buffer, i), conn, skipSelf) == (if Skipped(u, conn, skipSelf) then rest else [u] + rest)
            && Sorted(Heard(From(buffer, i), conn, skipSelf))
  {
    OthersAre(From(buffer, i), conn);
    assert From(buffer, i)[1..] == From(buffer, i + 1);
    assert From(buffer, i) == [buffer[i]] + From(buffer, i + 1);
  }

  lemma NothingBetween(buffer: seq<Update>, low: Time, high: Time, conn: Conn, skipSelf: bool)
    ensures Between(Heard(From(buffer, |buffer|), conn, skipSelf), low, high) == []
  {
  }

  /** From a sorted buffer, a scan takes the contiguous part between its bounds of what the subscriber gets at all. */
  lemma {:induction false} SelectIsBetween(buffer: seq<Update>, i: nat, low: Time, high: Time, conn: Conn,
                                           skipSelf: bool)
    requires Sorted(buffer) && i <= |buffer|
    ensures Select(buffer, i, low, high, conn, skipSelf) == Between(Heard(From(buffer, i), conn, skipSelf), low, high)
    decreases |buffer| - i
  {
    hide Between, Sorted, Heard, From, Skipped;
    if i == |buffer| {
      NothingBetween(buffer, low, high, conn, skipSelf);
    } else {
      var u, rest := buffer[i], Heard(From(buffer, i + 1), conn, skipSelf);
      HeardFromNext(buffer, i, conn, skipSelf);
      SelectIsBetween(buffer, i + 1, low, high, conn, skipSelf);
      if !Skipped(u, conn, skipSelf) {
        BetweenCons(u, rest, low, high);
        SelectIsBetween(buffer, i + 1, u.arrivalTime, high, conn, skipSelf);
      }
    }
  }

  // ------------------------------------------------------ what is ever sent

  predicate InBounds(u: Update, low: Time, high: Time, conn: Conn, skipSelf: bool) {
    !Skipped(u, conn, skipSelf) && low <= u.arrivalTime <= high
  }

  /** The k-th update is one of the window, and none of those before it in the buffer has a later time. */
  predicate Leads(buffer: seq<Update>, i: nat, low: Time, high: Time, conn: Conn, skipSelf: bool, k: nat) {
    && i <= k < |buffer| && InBounds(buffer[k], low, high, conn, skipSelf)
    && forall j | i <= j < k :: InBounds(buffer[j], low, high, conn, skipSelf) ==>
         buffer[j].arrivalTime <= buffer[k].arrivalTime
  }

  lemma LeadsFromNext(buffer: seq<Update>, i: nat, low: Time, high: Time, conn: Conn, skipSelf: bool, k: nat)
    requires i < k < |buffer|
    ensures var next := if InBounds(buffer[i], low, high, conn, skipSelf) then buffer[i].arrivalTime else low;
            Leads(buffer, i, low, high, conn, skipSelf, k) <==> Leads(buffer, i + 1, next, high, conn, skipSelf, k)
  {
  }

  /** Whatever the order of the buffer, a scan takes exactly the updates that lead. */
  lemma {:induction false} SelectTakesLeaders(buffer: seq<Update>, i: nat, low: Time, high: Time, conn: Conn,
                                              skipSelf: bool, u: Update)
    requires i <= |buffer|
    ensures u in Select(buffer, i, low, high, conn, skipSelf) <==>
            exists k :: 0 <= k < |buffer| && buffer[k] == u && Leads(buffer, i, low, high, conn, skipSelf, k)
    decreases |buffer| - i
  {
    if i < |buffer| {
      var taken := InBounds(buffer[i], low, high, conn, skipSelf);
      var next := if taken then buffer[i].arrivalTime else low;
      SelectTakesLeaders(buffer, i + 1, next, high, conn, skipSelf, u);
      forall k | i < k < |buffer|
        ensures Leads(buffer, i, low, high, conn, skipSelf, k) <==> Leads(buffer, i + 1, next, high, conn, skipSelf, k)
      {
        LeadsFromNext(buffer, i, low, high, conn, skipSelf, k);
      }
      assert Leads(buffer, i, low, high, conn, skipSelf, i) <==> taken;
      hide Leads, InBounds;
    }
  }

  /** Some window of the subscriber's own loop takes the update. */
  predicate Sends(e: Entry, o: Options, s: State, t: Time, u: Update)
    requires s.msg.Some? && (Due(e, o, t) ==> o.intervalMs > 0)
    decreases Overdue(e, o, t)
  {
    Due(e, o, t) &&
    (OverdueDecreases(e, o, s, t);
     (e.hadFirst && u in Window(e, o, s.buffer)) || Sends(ServedEntry(e, o, s, t), o, s, t, u))
  }

  /**
   An update with a time before the last fan-out is not sent, by this tick's windows or, as times only
   grow, by later ones.
   */
  lemma {:induction false} LateUpdateIsLost(e: Entry, o: Options, s: State, t: Time, u: Update)
    requires s.msg.Some? && (Due(e, o, t) ==> o.intervalMs > 0) && e.hadFirst && u.arrivalTime < e.last
    ensures !Sends(e, o, s, t, u) && u.arrivalTime < DrainedEntry(e, o, s, t).last
    decreases Overdue(e, o, t)
  {
    SelectBounds(s.buffer, 0, Max(0, e.last), NextTime(e, o), e.conn, o.skipSelf);
    hide Select;
    if Due(e, o, t) {
      OverdueDecreases(e, o, s, t);
      LateUpdateIsLost(ServedEntry(e, o, s, t), o, s, t, u);
    }
  }

  lemma SortedTakesAll(e: Entry, o: Options, buffer: seq<Update>, u: Update)
    requires Sorted(buffer) && u in buffer && !Skipped(u, e.conn, o.skipSelf) && 0 <= u.arrivalTime
    ensures u in Window(e, o, buffer) <==> e.last <= u.arrivalTime <= NextTime(e, o)
  {
    var low, high := Max(0, e.last), NextTime(e, o);
    SelectTakesLeaders(buffer, 0, low, high, e.conn, o.skipSelf, u);
    hide Select;
    var k :| 0 <= k < |buffer| && buffer[k] == u;
    assert Leads(buffer, 0, low, high, e.conn, o.skipSelf, k) <==> low <= u.arrivalTime <= high;
  }

  /**
   From a buffer in order, a due subscriber's loop sends an update iff its time is from that of the last
   fan-out before to that of the last one after, both included.
   */
  lemma {:induction false} SendsIff(e: Entry, o: Options, s: State, t: Time, u: Update)
    requires s.msg.Some? && Due(e, o, t) && o.intervalMs > 0 && e.hadFirst
    requires Sorted(s.buffer) && u in s.buffer && !Skipped(u, e.conn, o.skipSelf) && 0 <= u.arrivalTime
    ensures Sends(e, o, s, t, u) <==> e.last <= u.arrivalTime <= DrainedEntry(e, o, s, t).last
    decreases Overdue(e, o, t)
  {
    SortedTakesAll(e, o, s.buffer, u);
    hide Window, Sorted, Skipped;
    OverdueDecreases(e, o, s, t);
    var e' := ServedEntry(e, o, s, t);
    DrainedIsNotDue(e', o, s, t);
    if Due(e', o, t) {
      SendsIff(e', o, s, t, u);
    }
  }

  // ---------------------------------------------------------------- examples

  function At(t: Time): Update {
    Update(map[], t, 0, 0)
  }

  /** The second of two updates out of order is in the window, and is not taken. */
  lemma DisorderLosesUpdates()
    ensures Select([At(2), At(1)], 0, 0, 3, 1, false) == [At(2)]
    ensures InWindow([At(2), At(1)], 0, 0, 3, 1, false) == [At(2), At(1)]
  {
  }

  const PLAIN := Options(READ_ACCESS, [], 20, 0, false, false)

  /** A channel with a single update in its buffer. */
  function OneUpdate(u: Update): State {
    State(true, Some(map[]), 1, [u], 20, map[], map[], map[])
  }

  /** An update of time 1 that comes after a fan-out of time 2 is never sent. */
  lemma LateExample(t: Time)
    ensures !Sends(Entry(1, 0, true, 2, 0), PLAIN, OneUpdate(At(1)), t, At(1))
  {
    LateUpdateIsLost(Entry(1, 0, true, 2, 0), PLAIN, OneUpdate(At(1)), t, At(1));
  }
}

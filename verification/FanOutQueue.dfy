/** The fan-out queue as a list, and the map from connections to their entries. */
module FanOutQueue {
  import opened Prelude
  import opened FanOut

  ghost predicate Distinct(q: seq<Entry>) {
    forall i, j | 0 <= i < j < |q| :: q[i].conn != q[j].conn
  }

  ghost function Entries(q: seq<Entry>): map<Conn, Entry>
    requires Distinct(q)
  {
    map e | e in q :: e.conn := e
  }

  lemma EntriesAt(q: seq<Entry>, i: nat)
    requires Distinct(q) && i < |q|
    ensures q[i].conn in Entries(q) && Entries(q)[q[i].conn] == q[i]
  {
    assert q[i] in q;
  }

  /** The entry at `i` is taken out and put, as `x`, behind the entry at `j`. */
  function MoveAfter(q: seq<Entry>, i: nat, j: nat, x: Entry): (r: seq<Entry>)
    requires i <= j < |q|
    ensures |r| == |q|
  {
    q[..i] + q[i + 1..j + 1] + [x] + q[j + 1..]
  }

  /** Where the element at `k` comes from. */
  function RemovedFrom(i: nat, k: nat): nat {
    if k < i then k else k + 1
  }

  function MovedFrom(i: nat, j: nat, k: nat): nat {
    if k < i then k else if k < j then k + 1 else if k == j then i else k
  }

  function RemovedTo(i: nat, k: nat): nat {
    if k <= i then k else k - 1
  }

  function MovedTo(i: nat, j: nat, k: nat): nat {
    if k < i then k else if k == i then j else if k <= j then k - 1 else k
  }

  lemma RemoveAtIndex(q: seq<Entry>, i: nat)
    requires i < |q|
    ensures forall k | 0 <= k < |q| - 1 :: RemoveAt(q, i)[k] == q[RemovedFrom(i, k)]
  {
  }

  lemma MoveAfterIndex(q: seq<Entry>, i: nat, j: nat, x: Entry)
    requires i <= j < |q|
    ensures forall k | 0 <= k < |q| ::
              MoveAfter(q, i, j, x)[k] == if k == j then x else q[MovedFrom(i, j, k)]
  {
  }

  /** A queue whose entries are those of `m`, each once, represents `m`. */
  lemma EntriesAre(r: seq<Entry>, m: map<Conn, Entry>)
    requires Distinct(r)
    requires forall k | 0 <= k < |r| :: r[k].conn in m && m[r[k].conn] == r[k]
    requires forall c <- m.Keys :: m[c].conn == c && m[c] in r
    ensures Entries(r) == m
  {
    hide Distinct;
    forall c | c in m ensures c in Entries(r) && Entries(r)[c] == m[c] {
      var e := m[c];
      assert e in r && e.conn == c;
    }
    forall c | c in Entries(r) ensures c in m {
      var e :| e in r && e.conn == c;
    }
  }

  lemma InEntries(q: seq<Entry>, c: Conn) returns (k: nat)
    requires Distinct(q) && c in Entries(q)
    ensures k < |q| && q[k].conn == c && Entries(q)[c] == q[k]
  {
    var e :| e in q && e.conn == c;
    k :| 0 <= k < |q| && q[k] == e;
    EntriesAt(q, k);
  }

  lemma RemoveAtDistinct(q: seq<Entry>, i: nat)
    requires Distinct(q) && i < |q|
    ensures Distinct(RemoveAt(q, i))
  {
    RemoveAtIndex(q, i);
    hide RemoveAt;
  }

  lemma RemoveAtCovers(q: seq<Entry>, i: nat, c: Conn)
    requires Distinct(q) && i < |q| && c in Entries(q) && c != q[i].conn
    ensures Entries(q)[c].conn == c && Entries(q)[c] in RemoveAt(q, i)
  {
    var k := InEntries(q, c);
    RemoveAtIndex(q, i);
    hide RemoveAt, Distinct;
    assert RemoveAt(q, i)[RemovedTo(i, k)] == q[k];
  }

  lemma RemoveAtEntries(q: seq<Entry>, i: nat)
    requires Distinct(q) && i < |q|
    ensures Distinct(RemoveAt(q, i))
    ensures Entries(RemoveAt(q, i)) == Entries(q) - {q[i].conn}
    ensures forall k | 0 <= k < i :: RemoveAt(q, i)[k] == q[k]
  {
    RemoveAtIndex(q, i);
    RemoveAtDistinct(q, i);
    hide RemoveAt;
    var r, m := RemoveAt(q, i), Entries(q) - {q[i].conn};
    forall k | 0 <= k < |r| ensures r[k].conn in m && m[r[k].conn] == r[k] {
      EntriesAt(q, RemovedFrom(i, k));
    }
    hide Distinct;
    forall c <- m.Keys ensures m[c].conn == c && m[c] in r {
      RemoveAtCovers(q, i, c);
    }
    EntriesAre(r, m);
  }

  lemma MoveAfterDistinct(q: seq<Entry>, i: nat, j: nat, x: Entry)
    requires Distinct(q) && i <= j < |q| && x.conn == q[i].conn
    ensures Distinct(MoveAfter(q, i, j, x))
  {
    MoveAfterIndex(q, i, j, x);
    hide MoveAfter;
    forall k | 0 <= k < |q| ensures MoveAfter(q, i, j, x)[k].conn == q[MovedFrom(i, j, k)].conn {
    }
  }

  lemma MoveAfterImage(q: seq<Entry>, i: nat, j: nat, x: Entry, k: nat)
    requires Distinct(q) && i <= j < |q| && x.conn == q[i].conn && k < |q|
    ensures var e, m := MoveAfter(q, i, j, x)[k], Entries(q)[x.conn := x]; e.conn in m && m[e.conn] == e
  {
    MoveAfterIndex(q, i, j, x);
    hide MoveAfter;
    EntriesAt(q, MovedFrom(i, j, k));
  }

  lemma MoveAfterCovers(q: seq<Entry>, i: nat, j: nat, x: Entry, c: Conn)
    requires Distinct(q) && i <= j < |q| && x.conn == q[i].conn && c in Entries(q)[x.conn := x]
    ensures var m := Entries(q)[x.conn := x]; m[c].conn == c && m[c] in MoveAfter(q, i, j, x)
  {
    MoveAfterIndex(q, i, j, x);
    if c == x.conn {
      assert MoveAfter(q, i, j, x)[j] == x;
    } else {
      var k := InEntries(q, c);
      assert MoveAfter(q, i, j, x)[MovedTo(i, j, k)] == q[k];
    }
    hide MoveAfter, Distinct;
  }

  /** The entry moved is replaced; everybody else keeps theirs, and nobody has two. */
  lemma MoveAfterEntries(q: seq<Entry>, i: nat, j: nat, x: Entry)
    requires Distinct(q) && i <= j < |q| && x.conn == q[i].conn
    ensures Distinct(MoveAfter(q, i, j, x))
    ensures Entries(MoveAfter(q, i, j, x)) == Entries(q)[x.conn := x]
    ensures forall k | 0 <= k < i :: MoveAfter(q, i, j, x)[k] == q[k]
  {
    MoveAfterIndex(q, i, j, x);
    MoveAfterDistinct(q, i, j, x);
    hide MoveAfter, Distinct;
    var r, m := MoveAfter(q, i, j, x), Entries(q)[x.conn := x];
    forall k | 0 <= k < |r| ensures r[k].conn in m && m[r[k].conn] == r[k] {
      MoveAfterImage(q, i, j, x, k);
    }
    forall c <- m.Keys ensures m[c].conn == c && m[c] in r {
      MoveAfterCovers(q, i, j, x, c);
    }
    EntriesAre(r, m);
  }

  function PushFront(q: seq<Entry>, x: Entry): seq<Entry> {
    [x] + q
  }

  lemma PushFrontEntries(q: seq<Entry>, x: Entry)
    requires Distinct(q) && x.conn !in Entries(q)
    ensures Distinct(PushFront(q, x))
    ensures Entries(PushFront(q, x)) == Entries(q)[x.conn := x]
  {
    var r := PushFront(q, x);
    forall k | 0 <= k < |q| ensures q[k].conn != x.conn {
      EntriesAt(q, k);
    }
    assert Distinct(r);
    var m := Entries(q)[x.conn := x];
    forall k | 0 <= k < |r| ensures r[k].conn in m && m[r[k].conn] == r[k] {
      if k > 0 {
        EntriesAt(q, k - 1);
      }
    }
    forall c | c in m ensures m[c].conn == c && m[c] in r {
      if c != x.conn {
        var e :| e in q && e.conn == c;
        assert e in r;
      }
    }
    EntriesAre(r, m);
  }

  lemma NotInQueue(q: seq<Entry>, c: Conn)
    requires Distinct(q) && forall k | 0 <= k < |q| :: q[k].conn != c
    ensures Entries(q) - {c} == Entries(q)
  {
    forall e | e in q ensures e.conn != c {
      var k :| 0 <= k < |q| && q[k] == e;
    }
    assert c !in Entries(q);
  }

  // ---------------------------------------------------- the walk's measure

  /** The windows still overdue for one entry during a tick. */
  ghost function Work(e: Entry, s: State, t: Time, closing: set<Conn>): nat {
    if Readable(s, e.conn, closing) then Overdue(e, s.subs[e.conn].options, t) else 0
  }

  ghost function TotalWork(q: seq<Entry>, s: State, t: Time, closing: set<Conn>): nat {
    if q == [] then 0 else Work(q[0], s, t, closing) + TotalWork(q[1..], s, t, closing)
  }

  lemma {:induction false} TotalWorkConcat(a: seq<Entry>, b: seq<Entry>, s: State, t: Time, closing: set<Conn>)
    ensures TotalWork(a + b, s, t, closing) == TotalWork(a, s, t, closing) + TotalWork(b, s, t, closing)
  {
    hide Work;
    if a == [] {
      assert a + b == b;
    } else {
      TotalWorkConcat(a[1..], b, s, t, closing);
      assert (a + b)[1..] == a[1..] + b;
    }
  }

  lemma TotalWorkOne(e: Entry, s: State, t: Time, closing: set<Conn>)
    ensures TotalWork([e], s, t, closing) == Work(e, s, t, closing)
  {
    assert [e][1..] == [];
  }

  lemma RemoveAtWork(q: seq<Entry>, i: nat, s: State, t: Time, closing: set<Conn>)
    requires i < |q|
    ensures TotalWork(RemoveAt(q, i), s, t, closing) <= TotalWork(q, s, t, closing)
  {
    var a, b := q[..i], q[i + 1..];
    assert q == a + ([q[i]] + b);
    hide TotalWork;
    TotalWorkConcat(a, b, s, t, closing);
    TotalWorkConcat([q[i]], b, s, t, closing);
    TotalWorkConcat(a, [q[i]] + b, s, t, closing);
  }

  lemma MoveAfterWork(q: seq<Entry>, i: nat, j: nat, x: Entry, s: State, t: Time, closing: set<Conn>)
    requires i <= j < |q|
    ensures TotalWork(MoveAfter(q, i, j, x), s, t, closing) + Work(q[i], s, t, closing)
         == TotalWork(q, s, t, closing) + Work(x, s, t, closing)
  {
    var a, b, c := q[..i], q[i + 1..j + 1], q[j + 1..];
    assert q == a + ([q[i]] + (b + c));
    assert MoveAfter(q, i, j, x) == a + (b + ([x] + c));
    hide TotalWork;
    TotalWorkConcat(b, c, s, t, closing);
    TotalWorkConcat([q[i]], b + c, s, t, closing);
    TotalWorkConcat(a, [q[i]] + (b + c), s, t, closing);
    TotalWorkConcat([x], c, s, t, closing);
    TotalWorkConcat(b, [x] + c, s, t, closing);
    TotalWorkConcat(a, b + ([x] + c), s, t, closing);
    TotalWorkOne(x, s, t, closing);
    TotalWorkOne(q[i], s, t, closing);
  }
}

/** An owner that closes with a recover handle gets its channel back, in every run. */
module OwnerRecovery {
  import opened Prelude
  import opened FanOut
  import opened ChannelTick

  /** One channel, and the connections and recover handles around it. */
  datatype State = State(
    owner: Option<Conn>,
    subs: map<Conn, Subscription>,
    records: map<Pit, RecoverableSubscription>,
    closing: set<Conn>,
    pits: map<Conn, Pit>,
    handles: map<Conn, RecoverHandle>,        // of connections that closed recoverably or recover
    newConns: map<RecoverHandle, Conn>,       // handles that have found their new connection
    removing: bool)

  datatype Event =
    | Closes(conn: Conn)
    | ClosesRecoverably(conn: Conn, handle: RecoverHandle)
    | Recovers(conn: Conn, handle: RecoverHandle)
    // The previous connection id is taken. The table of connection ids, which has then lost
    // that entry, so that another attempt can succeed, is not part of this model.
    | FailsToRecover(conn: Conn, handle: RecoverHandle)
    | Subscribes(conn: Conn, sub: Subscription)
    | Unsubscribes(conn: Conn)
    | ConnectionsTick
    | RecoveryTick

  function Found(s: State): map<Pit, Conn> {
    map p | p in s.records && s.records[p].handle in s.newConns :: s.newConns[s.records[p].handle]
  }

  predicate OpenlyOwned(s: State) {
    s.owner.Some? && s.owner.value !in s.closing
  }

  /**
   What the two walks of a tick do is what their methods promise, when nobody abandons the channel and
   no handle times out.
   */
  ghost predicate Next(s: State, ev: Event, t: State) {
    && s.handles.Keys <= s.pits.Keys
    && match ev
       case Closes(c) => t == s.(closing := s.closing + {c})
       case ClosesRecoverably(c, h) =>
         c !in s.closing && c in s.pits && h !in s.handles.Values
         && t == s.(closing := s.closing + {c}, handles := s.handles[c := h])
       case Recovers(c, h) =>
         c !in s.closing && c in s.pits && h !in s.newConns
         && t == s.(newConns := s.newConns[h := c], handles := s.handles[c := h])
       case FailsToRecover(c, h) => t == s
       case Subscribes(c, sub) => t == if c in s.closing then s else s.(subs := s.subs[c := sub])
       case Unsubscribes(c) =>
         t == s.(subs := s.subs - {c},
                 owner := if c in s.subs && s.owner == Some(c) && c !in s.closing then None else s.owner)
       case ConnectionsTick =>
         && LeftRecords(s.subs.Keys * s.closing, s.subs, s.owner, s.pits, s.handles, s.records, t.records)
         && t == s.(subs := s.subs - s.closing, records := t.records,
                    owner := if s.owner.Some? && s.owner.value in s.closing * s.subs.Keys then None else s.owner)
       case RecoveryTick =>
         && OwnerRestored(s.records, Found(s), Found(s).Keys, s.owner, OpenlyOwned(s), t.owner)
         && SubsRestored(s.records, Found(s), Found(s).Keys, s.closing, s.subs, t.subs)
         && t == s.(records := s.records - Found(s).Keys, owner := t.owner, subs := t.subs)
  }

  /** Who closed, with which handle and options, and who is to take over. */
  datatype Case = Case(was: Conn, pit: Pit, handle: RecoverHandle, options: Options, next: Conn)

  /** Steps that leave the case alone: both keep their part, and the token is nobody else's. */
  predicate Undisturbed(k: Case, s: State, ev: Event) {
    match ev
    case Closes(c) => c != k.next
    case ClosesRecoverably(c, h) => c != k.next && c != k.was && (c in s.pits ==> s.pits[c] != k.pit)
    case Recovers(c, h) => (h == k.handle <==> c == k.next) && (c != k.next && c in s.pits ==> s.pits[c] != k.pit)
    case Subscribes(c, _) => c != k.next
    case Unsubscribes(c) => c != k.next && c != k.was
    case _ => true
  }

  /** The new connection is open; only the two of them have the handle; no other closed one has the token. */
  ghost predicate Watched(k: Case, s: State) {
    && k.was != k.next && k.next !in s.closing && k.was in s.closing && !s.removing
    && k.was in s.handles && s.handles[k.was] == k.handle && k.was in s.pits && s.pits[k.was] == k.pit
    && s.handles.Keys <= s.pits.Keys
    && (forall c <- s.handles.Keys :: s.pits[c] == k.pit ==> c == k.was || c == k.next)
    && (forall c <- s.handles.Keys :: s.handles[c] == k.handle ==> c == k.was || c == k.next)
    && (forall h <- s.newConns.Keys :: h == k.handle <==> s.newConns[h] == k.next)
    && (forall p <- s.records.Keys :: p != k.pit ==> !s.records[p].isOwner && s.records[p].handle != k.handle)
  }

  /** The old owner is still subscribed. */
  ghost predicate Lost(k: Case, s: State) {
    && k.was in s.subs && s.subs[k.was].options == k.options && s.owner == Some(k.was)
    && k.next !in s.subs && k.pit !in s.records
  }

  /** Its record waits for the new connection. */
  ghost predicate Recorded(k: Case, s: State) {
    && k.was !in s.subs && s.owner == None && k.next !in s.subs
    && k.pit in s.records && s.records[k.pit].handle == k.handle
    && s.records[k.pit].isOwner && s.records[k.pit].oldSubOptions == k.options
  }

  /** The new connection owns the channel and is subscribed as the old one was, without a first fan-out. */
  ghost predicate Recovered(k: Case, s: State) {
    && s.owner == Some(k.next)
    && k.next in s.subs && s.subs[k.next].options == k.options.(skipFirst := true)
    && k.was !in s.subs && k.pit !in s.records
  }

  ghost predicate Underway(k: Case, s: State) {
    Watched(k, s) && (Lost(k, s) || Recorded(k, s) || Recovered(k, s))
  }

  lemma TicksRecord(k: Case, s: State, t: State)
    requires Underway(k, s) && Next(s, ConnectionsTick, t)
    ensures Watched(k, t) && (if Recovered(k, s) then Recovered(k, t) else Recorded(k, t))
  {
  }

  lemma TicksRecover(k: Case, s: State, t: State)
    requires Underway(k, s) && Next(s, RecoveryTick, t)
    ensures Watched(k, t)
    ensures Lost(k, s) ==> Lost(k, t)
    ensures Recovered(k, s) ==> Recovered(k, t)
    ensures Recorded(k, s) ==> if k.handle in s.newConns then Recovered(k, t) else Recorded(k, t)
  {
  }

  lemma OtherStepsLeaveIt(k: Case, s: State, ev: Event, t: State)
    requires Underway(k, s) && Undisturbed(k, s, ev) && Next(s, ev, t) && !ev.ConnectionsTick? && !ev.RecoveryTick?
    ensures Watched(k, t)
    ensures (Lost(k, s) ==> Lost(k, t)) && (Recorded(k, s) ==> Recorded(k, t)) && (Recovered(k, s) ==> Recovered(k, t))
  {
  }

  /** A case starts when the owner closes with a handle; no older record or handle is mixed up in it. */
  lemma ClosingStartsTheCase(k: Case, s: State, t: State)
    requires Next(s, ClosesRecoverably(k.was, k.handle), t)
    requires s.owner == Some(k.was) && k.was in s.subs && s.subs[k.was].options == k.options && !s.removing
    requires k.next != k.was && k.next !in s.closing && k.next !in s.subs && k.next !in s.newConns.Values
    requires s.pits[k.was] == k.pit && k.pit !in s.records && k.handle !in s.newConns
    requires forall p <- s.records.Keys :: !s.records[p].isOwner && s.records[p].handle != k.handle
    requires forall c <- s.handles.Keys :: s.pits[c] == k.pit ==> c == k.was || c == k.next
    ensures Watched(k, t) && Lost(k, t)
  {
    assert forall c <- s.handles.Keys :: s.handles[c] in s.handles.Values;
    assert forall h <- s.newConns.Keys :: s.newConns[h] in s.newConns.Values;
  }

  /** A run: the states before and after each step, none of which disturbs the case. */
  ghost predicate Run(k: Case, states: seq<State>, events: seq<Event>) {
    && |states| == |events| + 1
    && forall i | 0 <= i < |events| ::
         Next(states[i], events[i], states[i + 1]) && Undisturbed(k, states[i], events[i])
  }

  lemma StepKeepsUnderway(k: Case, s: State, ev: Event, t: State)
    requires Underway(k, s) && Next(s, ev, t) && Undisturbed(k, s, ev)
    ensures Underway(k, t)
    ensures Recovered(k, s) ==> Recovered(k, t)
    ensures !Lost(k, s) ==> !Lost(k, t)
    ensures ev.ConnectionsTick? ==> !Lost(k, t)
    ensures ev.RecoveryTick? && !Lost(k, s) && k.handle in s.newConns ==> Recovered(k, t)
  {
    if ev.ConnectionsTick? {
      TicksRecord(k, s, t);
    } else if ev.RecoveryTick? {
      TicksRecover(k, s, t);
    } else {
      OtherStepsLeaveIt(k, s, ev, t);
    }
    hide Next, Undisturbed, Watched;
  }

  lemma StepOfRun(k: Case, states: seq<State>, events: seq<Event>, n: nat)
    requires Run(k, states, events) && n < |events| && Underway(k, states[n])
    ensures |states| == |events| + 1 && Underway(k, states[n + 1])
    ensures Recovered(k, states[n]) ==> Recovered(k, states[n + 1])
    ensures !Lost(k, states[n]) ==> !Lost(k, states[n + 1])
    ensures events[n].ConnectionsTick? ==> !Lost(k, states[n + 1])
    ensures events[n].RecoveryTick? && !Lost(k, states[n]) && k.handle in states[n].newConns ==>
              Recovered(k, states[n + 1])
  {
    hide Next, Undisturbed, Underway, Lost, Recovered;
    StepKeepsUnderway(k, states[n], events[n], states[n + 1]);
  }

  /** From the `m`th state to the `n`th. */
  lemma {:induction false} RunStaysUnderway(k: Case, states: seq<State>, events: seq<Event>, m: nat, n: nat)
    requires |states| == |events| + 1 && Run(k, states, events) && m <= n <= |events| && Underway(k, states[m])
    ensures Underway(k, states[n])
    ensures Recovered(k, states[m]) ==> Recovered(k, states[n])
    ensures !Lost(k, states[m]) ==> !Lost(k, states[n])
    decreases n - m
  {
    hide Run, Underway, Lost, Recovered;
    if m < n {
      StepOfRun(k, states, events, m);
      RunStaysUnderway(k, states, events, m + 1, n);
    }
  }

  /** From the `m`th state to the `n`th, with a tick of the connections at the `i`th. */
  lemma RunRecords(k: Case, states: seq<State>, events: seq<Event>, m: nat, i: nat, n: nat)
    requires |states| == |events| + 1 && Run(k, states, events) && m <= i < n <= |events| && Underway(k, states[m])
    requires events[i].ConnectionsTick?
    ensures Underway(k, states[n]) && !Lost(k, states[n])
  {
    hide Run, Underway, Lost, Recovered;
    RunStaysUnderway(k, states, events, m, i);
    StepOfRun(k, states, events, i);
    RunStaysUnderway(k, states, events, i + 1, n);
  }

  /** With a tick of the recoverable subscriptions at the `j`th. */
  lemma RunRecovers(k: Case, states: seq<State>, events: seq<Event>, j: nat, n: nat)
    requires |states| == |events| + 1 && Run(k, states, events) && j < n <= |events|
    requires Underway(k, states[j]) && !Lost(k, states[j])
    requires events[j].RecoveryTick? && k.handle in states[j].newConns
    ensures Underway(k, states[n]) && Recovered(k, states[n])
  {
    hide Run, Underway, Lost, Recovered;
    StepOfRun(k, states, events, j);
    RunStaysUnderway(k, states, events, j + 1, n);
  }

  /**
   In every run after an owner closed with a handle: once the channel has ticked its connections
   and then, with the handle's new connection known, its recoverable subscriptions, the new
   connection is the owner, subscribed with the old options except for the skipped first
   fan-out, the record is gone, and the channel is not being removed.
   */
  lemma OwnersRecover(k: Case, states: seq<State>, events: seq<Event>, i: nat, j: nat, n: nat)
    requires Run(k, states, events) && Watched(k, states[0]) && Lost(k, states[0])
    requires i < j < n <= |events| && events[i].ConnectionsTick? && events[j].RecoveryTick?
    requires k.handle in states[j].newConns
    ensures states[n].owner == Some(k.next) && !states[n].removing && k.pit !in states[n].records
    ensures k.next in states[n].subs && states[n].subs[k.next].options == k.options.(skipFirst := true)
  {
    assert |states| == |events| + 1 && Underway(k, states[0]);
    hide Run, Lost;
    RunRecords(k, states, events, 0, i, j);
    RunRecovers(k, states, events, j, n);
  }
}

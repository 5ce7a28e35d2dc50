/**
 A channel: the data, the subscribers and the fan-out queue, updated in place.
 The set `closing` of a tick is the connections found closing while the tick runs.
 */
module ChannelTick {
  import opened Prelude
  import opened FanOut
  import opened FanOutQueue
  import opened Subscriptions
  import opened Walks

  type Pit = nat   // a player identifier token

  /** Shared by a closed connection, the recovering one and the channels of both. */
  class RecoverHandle {
    var newConn: Option<Conn>
    var timedOut: bool
  }

  datatype RecoverableSubscription = RecoverableSubscription(
    handle: RecoverHandle,
    isOwner: bool,
    oldSubTime: Time,
    oldSubOptions: Options)

  class Channel {
    var initialized: bool
    var msg: Option<Message>
    var accumulatedUpdateMsg: Option<Message>
    var updateMsgBuffer: seq<Update>
    var maxFanOutIntervalMs: nat
    var msgIndex: nat
    var fanOutQueue: seq<Entry>
    var subscribedConnections: map<Conn, Subscription>
    var spatialSubscribers: set<Conn>   // who holds this channel in its spatialSubscriptions
    var sent: map<Conn, seq<Message>>   // what has been sent to each connection, in order
    var nextElement: nat                // identities for list elements
    const isSpatial: bool
    var owner: Option<Conn>
    var removing: bool
    var recoverableSubs: map<Pit, RecoverableSubscription>

    ghost predicate Valid()
      reads this
    {
      && Distinct(fanOutQueue)
      && Entries(fanOutQueue).Keys <= sent.Keys
    }

    ghost function View(): State
      requires Valid()
      reads this
    {
      State(initialized, msg, msgIndex, updateMsgBuffer, maxFanOutIntervalMs,
            Entries(fanOutQueue), subscribedConnections, sent)
    }

    constructor (isSpatial: bool, owner: Option<Conn>)
      ensures Valid()
      ensures View() == State(false, None, 0, [], 0, map[], map[], map[])
      ensures forall closing: set<Conn> :: Agreed(closing)
      ensures this.isSpatial == isSpatial && this.owner == owner && !removing && recoverableSubs == map[]
    {
      initialized, msg, accumulatedUpdateMsg := false, None, None;
      updateMsgBuffer, maxFanOutIntervalMs, msgIndex := [], 0, 0;
      fanOutQueue, subscribedConnections, spatialSubscribers := [], map[], {};
      sent, nextElement := map[], 0;
      this.isSpatial, this.owner := isSpatial, owner;
      removing, recoverableSubs := false, map[];
    }

    /** Without data of its own, a channel starts with the message registered for its type, if there is one. */
    method InitData(dataMsg: Option<Message>, registered: Option<Message>)
      requires Valid()
      modifies this`initialized, this`msg, this`accumulatedUpdateMsg, this`updateMsgBuffer,
               this`maxFanOutIntervalMs, this`msgIndex
      ensures Valid()
      ensures View() == old(View()).(initialized := true, msg := if dataMsg.Some? then dataMsg else registered,
                                     msgIndex := 0, buffer := [], maxIntervalMs := 0)
    {
      initialized, msg, accumulatedUpdateMsg := true, dataMsg, None;
      updateMsgBuffer, maxFanOutIntervalMs, msgIndex := [], 0, 0;
      if dataMsg.None? {
        msg := registered;
        accumulatedUpdateMsg := registered;
      }
    }

    /** The part of the state that subscribing and recovering leave alone. */
    ghost function DataView(): (bool, Option<Message>, seq<Update>, nat)
      reads this
    {
      (initialized, msg, updateMsgBuffer, msgIndex)
    }

    method OnUpdate(updateMsg: Message, t: Time, sender: Conn)
      requires Valid() && initialized
      modifies this`msg, this`msgIndex, this`updateMsgBuffer
      ensures Valid() && View() == Updated(old(View()), updateMsg, t, sender)
    {
      if msg.None? {
        msg := Some(updateMsg);
      } else {
        msg := Some(msg.value + updateMsg);
      }
      msgIndex := msgIndex + 1;
      updateMsgBuffer := updateMsgBuffer + [Update(updateMsg, t, sender, msgIndex)];
      if |updateMsgBuffer| > MAX_UPDATE_BUFFER_SIZE {
        var oldest := updateMsgBuffer[0];
        if AddMs(oldest.arrivalTime, maxFanOutIntervalMs) < t {
          updateMsgBuffer := updateMsgBuffer[1..];
        }
      }
    }

    /** Merges the updates of one window into the shared accumulator. */
    method AccumulateWindow(low: Time, high: Time, conn: Conn, skipSelf: bool)
      returns (hasEverMerged: bool, lastMessageIndex: nat)
      requires accumulatedUpdateMsg == Some(map[])
      modifies this`accumulatedUpdateMsg
      ensures var us := Select(updateMsgBuffer, 0, low, high, conn, skipSelf);
              && accumulatedUpdateMsg == Some(Fold(map[], us))
              && hasEverMerged == (us != [])
              && (us != [] ==> lastMessageIndex == us[|us| - 1].index)
    {
      hasEverMerged, lastMessageIndex := false, 0;
      var lastUpdateTime := low;
      ghost var taken: seq<Update> := [];
      ghost var all := Select(updateMsgBuffer, 0, low, high, conn, skipSelf);
      NothingTaken(all);
      hide Select, Fold, Skipped, Taken, LastIndex, Snoc;
      for bufi := 0 to |updateMsgBuffer|
        modifies this`accumulatedUpdateMsg
        invariant all == Taken(taken, Select(updateMsgBuffer, bufi, lastUpdateTime, high, conn, skipSelf))
        invariant accumulatedUpdateMsg == Some(Fold(map[], taken))
        invariant hasEverMerged == (taken != [])
        invariant lastMessageIndex == LastIndex(taken)
      {
        var be := updateMsgBuffer[bufi];
        SelectOne(updateMsgBuffer, bufi, lastUpdateTime, high, conn, skipSelf);
        if be.sender == conn && skipSelf {
          continue;
        }
        if be.arrivalTime >= lastUpdateTime && be.arrivalTime <= high {
          ghost var later := Select(updateMsgBuffer, bufi + 1, be.arrivalTime, high, conn, skipSelf);
          TakeOne(taken, be, later);
          if !hasEverMerged {
            accumulatedUpdateMsg := Some(be.msg);
          } else {
            accumulatedUpdateMsg := Some(accumulatedUpdateMsg.value + be.msg);
          }
          hasEverMerged := true;
          lastUpdateTime := be.arrivalTime;
          lastMessageIndex := be.index;
          taken := Snoc(taken, be);
        }
      }
      SelectNone(updateMsgBuffer, lastUpdateTime, high, conn, skipSelf);
      NothingLeft(taken);
    }

    lemma EmptySelect(last: Time, conn: Conn)
      ensures updateMsgBuffer == [] ==>
                forall high, skipSelf :: Select(updateMsgBuffer, 0, Max(0, last), high, conn, skipSelf) == []
    {
    }

    /** Sends the entry at `i` its first fan-out or its next window, and updates it in place. */
    method FanOutTo(i: nat, t: Time)
      requires Valid() && msg.Some? && i < |fanOutQueue|
      requires fanOutQueue[i].conn in subscribedConnections
      modifies this`msg, this`accumulatedUpdateMsg, this`fanOutQueue, this`sent
      ensures var e := old(fanOutQueue[i]);
              var o := subscribedConnections[e.conn].options;
              && fanOutQueue == old(fanOutQueue)[i := ServedEntry(e, o, old(View()), t)]
              && sent == old(sent)[e.conn := old(sent)[e.conn] + ServedMessages(e, o, old(View()))]
              && msg == Some(if e.hadFirst then old(msg).value else Filter(old(msg).value, o.masks))
    {
      var foc := fanOutQueue[i];
      EntriesAt(fanOutQueue, i);
      hide Entries, Select, Fold;
      assert sent[foc.conn] + [] == sent[foc.conn] && sent == sent[foc.conn := sent[foc.conn]];
      EmptySelect(foc.last, foc.conn);
      var conn, o := foc.conn, subscribedConnections[foc.conn].options;
      var nextFanOutTime := AddMs(foc.last, o.intervalMs);
      var latestFanOutTime := nextFanOutTime;
      accumulatedUpdateMsg := Some(map[]);
      if !foc.hadFirst {
        msg := Some(Filter(msg.value, o.masks));
        sent := sent[conn := sent[conn] + [msg.value]];
        foc := foc.(hadFirst := true, lastIndex := msgIndex);
        latestFanOutTime := t;
      } else if |updateMsgBuffer| > 0 {
        var lastUpdateTime := 0;
        if foc.last >= lastUpdateTime {
          lastUpdateTime := foc.last;
        }
        var hasEverMerged, lastMessageIndex := AccumulateWindow(lastUpdateTime, nextFanOutTime, conn, o.skipSelf);
        if hasEverMerged {
          foc := foc.(lastIndex := lastMessageIndex);
          accumulatedUpdateMsg := Some(Filter(accumulatedUpdateMsg.value, o.masks));
          sent := sent[conn := sent[conn] + [accumulatedUpdateMsg.value]];
        }
      }
      foc := foc.(last := latestFanOutTime);
      fanOutQueue := fanOutQueue[i := foc];
    }

    /** Moves the entry at `i` behind the last entry whose fan-out time is not after its own. */
    method MoveToBack(i: nat) returns (ghost j: nat)
      requires i < |fanOutQueue|
      modifies this`fanOutQueue
      ensures i <= j < |fanOutQueue| == |old(fanOutQueue)|
      ensures fanOutQueue == MoveAfter(old(fanOutQueue), i, j, old(fanOutQueue[i]))
      ensures forall k | j < k < |fanOutQueue| :: fanOutQueue[k].last > fanOutQueue[j].last
      ensures old(fanOutQueue)[j].last <= old(fanOutQueue)[i].last
    {
      var be := |fanOutQueue| - 1;
      while fanOutQueue[be].last > fanOutQueue[i].last
        invariant i <= be < |fanOutQueue|
        decreases be
        invariant forall k | be < k < |fanOutQueue| :: fanOutQueue[k].last > fanOutQueue[i].last
      {
        be := be - 1;
      }
      j := be;
      MoveAfterIndex(fanOutQueue, i, be, fanOutQueue[i]);
      fanOutQueue := MoveAfter(fanOutQueue, i, be, fanOutQueue[i]);
    }

    /** The work on one due entry; the walk goes on at the same position. */
    method Serve(i: nat, t: Time, ghost closing: set<Conn>)
      requires Valid() && i < |fanOutQueue|
      requires Servable(View(), fanOutQueue[i].conn, t, closing)
      modifies this`msg, this`accumulatedUpdateMsg, this`fanOutQueue, this`sent
      ensures Valid() && |fanOutQueue| == |old(fanOutQueue)|
      ensures forall k | 0 <= k < i :: fanOutQueue[k] == old(fanOutQueue[k])
      ensures var e := old(fanOutQueue[i]);
              var o := subscribedConnections[e.conn].options;
              var m := if e.hadFirst then old(msg).value else Filter(old(msg).value, o.masks);
              View() == ServeOne(old(View()), e.conn, t).(msg := Some(m))
      ensures TotalWork(fanOutQueue, View(), t, closing) < old(TotalWork(fanOutQueue, View(), t, closing))
    {
      hide Entries, Distinct, ServedEntry, ServedMessages, MoveAfter, TotalWork, Overdue;
      ghost var before, q, s := fanOutQueue[i], fanOutQueue, View();
      EntriesAt(q, i);
      FanOutTo(i, t);
      ghost var after := fanOutQueue[i];
      var j := MoveToBack(i);
      ReplaceThenMove(q, i, j, after);
      MoveAfterEntries(q, i, j, after);
      MoveAfterWork(q, i, j, after, s, t, closing);
      OverdueDecreases(before, s.subs[before.conn].options, s, t);
      TotalWorkSame(fanOutQueue, s, View(), t, closing);
    }

    // ------------------------------------------------------- subscriptions

    /** The tables agree, as far as open connections are concerned. */
    ghost predicate Agreed(closing: set<Conn>)
      reads this
    {
      && Valid()
      && ElementsMatch(View(), nextElement)
      && TablesAgree(View(), spatialSubscribers, isSpatial, closing)
    }

    /** Subscribes an open connection, or merges the options it asks for. */
    method SubscribeToChannel(c: Conn, change: Option<OptionsChange>, now: Time, defaults: Options, closing: set<Conn>)
      returns (cs: Option<Subscription>, shouldSend: bool)
      requires Agreed(closing)
      modifies this`fanOutQueue, this`subscribedConnections, this`maxFanOutIntervalMs,
               this`spatialSubscribers, this`sent, this`nextElement
      ensures Agreed(closing)
      ensures View() == if c in closing then old(View())
                        else Subscribed(old(View()), c, change, now, defaults, old(nextElement))
      ensures c in closing ==> cs.None? && !shouldSend
      ensures c !in closing ==>
                && cs == Some(subscribedConnections[c])
                && (shouldSend <==>
                      || c !in old(subscribedConnections)
                      || old(subscribedConnections[c].options).access != subscribedConnections[c].options.access)
                && (if c in old(subscribedConnections) then fanOutQueue == old(fanOutQueue)
                    else fanOutQueue != [] && fanOutQueue[1..] == old(fanOutQueue) && fanOutQueue[0].conn == c)
    {
      if c in closing {
        return None, false;
      }
      hide Entries, Distinct, MergeOptions, ElementsMatch, TablesAgree, Subscribed;
      SubscribedAgrees(View(), c, change, now, defaults, nextElement, spatialSubscribers, isSpatial, closing);
      OpenIsNotQueued(View(), c, spatialSubscribers, isSpatial, closing);
      if c in subscribedConnections {
        cs, shouldSend := MergeSubscription(c, change, now, defaults);
      } else {
        cs, shouldSend := AddSubscription(c, change, now, defaults);
      }
    }

    method MergeSubscription(c: Conn, change: Option<OptionsChange>, ghost now: Time, ghost defaults: Options)
      returns (cs: Option<Subscription>, dataAccessChanged: bool)
      requires Valid() && c in subscribedConnections
      modifies this`subscribedConnections
      ensures Valid() && View() == Subscribed(old(View()), c, change, now, defaults, nextElement)
      ensures cs == Some(subscribedConnections[c])
      ensures dataAccessChanged <==>
                old(subscribedConnections[c].options.access) != subscribedConnections[c].options.access
    {
      hide Entries, Distinct, MergeOptions;
      var sub := subscribedConnections[c];
      dataAccessChanged := false;
      if change.Some? {
        var dataAccess := sub.options.access;
        sub := sub.(options := MergeOptions(sub.options, change.value));
        subscribedConnections := subscribedConnections[c := sub];
        dataAccessChanged := dataAccess != sub.options.access;
      }
      assert subscribedConnections[c := sub] == subscribedConnections;
      cs := Some(sub);
    }

    method AddSubscription(c: Conn, change: Option<OptionsChange>, now: Time, defaults: Options)
      returns (cs: Option<Subscription>, shouldSend: bool)
      requires Valid() && c !in subscribedConnections && c !in Entries(fanOutQueue)
      modifies this`fanOutQueue, this`subscribedConnections, this`maxFanOutIntervalMs,
               this`spatialSubscribers, this`sent, this`nextElement
      ensures Valid() && View() == Subscribed(old(View()), c, change, now, defaults, old(nextElement))
      ensures c in subscribedConnections && cs == Some(subscribedConnections[c]) && shouldSend
      ensures fanOutQueue != [] && fanOutQueue[1..] == old(fanOutQueue) && fanOutQueue[0].conn == c
      ensures nextElement == old(nextElement) + 1
      ensures spatialSubscribers == if isSpatial then old(spatialSubscribers) + {c} else old(spatialSubscribers)
    {
      hide Entries, Distinct, MergeOptions;
      var options := defaults;
      if change.Some? {
        options := MergeOptions(options, change.value);
      }
      Enqueue(Entry(c, nextElement, options.skipFirst, AddMs(now, options.delayMs), 0));
      if initialized && maxFanOutIntervalMs < options.intervalMs {
        maxFanOutIntervalMs := options.intervalMs;
      }
      var sub := Subscription(options, now, nextElement);
      nextElement := nextElement + 1;
      subscribedConnections := subscribedConnections[c := sub];
      if isSpatial {
        spatialSubscribers := spatialSubscribers + {c};
      }
      return Some(sub), true;
    }

    /** A new entry goes to the front of the queue. */
    method Enqueue(foc: Entry)
      requires Valid() && foc.conn !in Entries(fanOutQueue)
      modifies this`fanOutQueue, this`sent
      ensures Valid() && Entries(fanOutQueue) == old(Entries(fanOutQueue))[foc.conn := foc]
      ensures fanOutQueue == [foc] + old(fanOutQueue)
      ensures sent == if foc.conn in old(sent) then old(sent) else old(sent)[foc.conn := []]
    {
      hide Entries, Distinct;
      PushFrontEntries(fanOutQueue, foc);
      assert PushFront(fanOutQueue, foc) == [foc] + fanOutQueue;
      fanOutQueue := PushFront(fanOutQueue, foc);
      if foc.conn !in sent {
        sent := sent[foc.conn := []];
      }
    }

    method UnsubscribeFromChannel(c: Conn, ghost closing: set<Conn>) returns (options: Option<Options>)
      requires Agreed(closing)
      modifies this`fanOutQueue, this`subscribedConnections, this`spatialSubscribers
      ensures Agreed(closing)
      ensures View() == Unsubscribed(old(View()), c)
      ensures options == if c in old(subscribedConnections) then Some(old(subscribedConnections[c].options)) else None
    {
      UnsubscribedAgrees(View(), c, nextElement, spatialSubscribers, isSpatial, closing);
      if c !in subscribedConnections {
        return None;
      }
      var cs := subscribedConnections[c];
      RemoveElement(cs.element, c);
      hide Entries, Distinct;
      subscribedConnections := subscribedConnections - {c};
      if isSpatial {
        spatialSubscribers := spatialSubscribers - {c};
      }
      return Some(cs.options);
    }

    /** Takes the list element out of the queue, if it is still there. */
    method RemoveElement(element: nat, ghost c: Conn)
      requires Valid()
      requires forall d <- Entries(fanOutQueue).Keys :: d == c <==> Entries(fanOutQueue)[d].element == element
      modifies this`fanOutQueue
      ensures Valid()
      ensures Entries(fanOutQueue) == old(Entries(fanOutQueue)) - {c}
    {
      var i := 0;
      while i < |fanOutQueue| && fanOutQueue[i].element != element
        invariant i <= |fanOutQueue|
        invariant forall k | 0 <= k < i :: fanOutQueue[k].element != element
      {
        i := i + 1;
      }
      if i < |fanOutQueue| {
        EntriesAt(fanOutQueue, i);
        RemoveAtEntries(fanOutQueue, i);
        fanOutQueue := RemoveAt(fanOutQueue, i);
      } else {
        forall k | 0 <= k < |fanOutQueue| ensures fanOutQueue[k].conn != c {
          EntriesAt(fanOutQueue, k);
        }
        NotInQueue(fanOutQueue, c);
      }
    }

    // ------------------------------------------- closing and recovering

    /** Whether the channel loses its owner for good when the tick finds it closing. */
    ghost predicate Abandoned(closing: set<Conn>, handles: map<Conn, RecoverHandle>, removeAfterOwnerRemoved: bool)
      reads this
    {
      LosesOwner(closing) && removeAfterOwnerRemoved && owner.value !in handles
    }

    ghost predicate LosesOwner(closing: set<Conn>)
      reads this
    {
      owner.Some? && owner.value in closing && owner.value in subscribedConnections
    }

    /**
     Forgets the closing connections. Those with a handle leave a record to recover from. A
     channel whose owner closes without one may be removed, and then the walk stops there.
     */
    method TickConnections(closing: set<Conn>, pits: map<Conn, Pit>, handles: map<Conn, RecoverHandle>,
                           removeAfterOwnerRemoved: bool)
      requires Agreed(closing)
      requires handles.Keys <= pits.Keys
      modifies this`subscribedConnections, this`owner, this`removing, this`recoverableSubs
      ensures Agreed(closing)
      ensures View() == old(View()).(subs := subscribedConnections)
      ensures owner == if old(LosesOwner(closing)) then None else old(owner)
      ensures !old(Abandoned(closing, handles, removeAfterOwnerRemoved)) ==>
                && removing == old(removing)
                && subscribedConnections == old(subscribedConnections) - closing
                && LeftRecords(old(subscribedConnections).Keys * closing, old(subscribedConnections), old(owner),
                               pits, handles, old(recoverableSubs), recoverableSubs)
      ensures old(Abandoned(closing, handles, removeAfterOwnerRemoved)) ==>
                && removing
                && SubMap(old(subscribedConnections) - closing, subscribedConnections)
                && SubMap(subscribedConnections, old(subscribedConnections))
    {
      hide Entries, Distinct, ElementsMatch, TablesAgree, LeftRecords;
      ghost var start := View();
      ghost var gone := ForgetAll(closing, pits, handles, removeAfterOwnerRemoved);
      Forgotten(start, closing);
      assert start.subs - (start.subs.Keys * closing) == start.subs - closing;
    }

    /** The walk over the subscribers; `gone` is the connections it has forgotten. */
    method ForgetAll(closing: set<Conn>, pits: map<Conn, Pit>, handles: map<Conn, RecoverHandle>,
                     removeAfterOwnerRemoved: bool) returns (ghost gone: set<Conn>)
      requires handles.Keys <= pits.Keys
      modifies this`subscribedConnections, this`owner, this`removing, this`recoverableSubs
      ensures gone <= old(subscribedConnections).Keys * closing
      ensures subscribedConnections == old(subscribedConnections) - gone
      ensures owner == if old(LosesOwner(closing)) then None else old(owner)
      ensures LeftRecords(gone, old(subscribedConnections), old(owner), pits, handles, old(recoverableSubs),
                recoverableSubs)
      ensures if old(Abandoned(closing, handles, removeAfterOwnerRemoved)) then removing
              else removing == old(removing) && gone == old(subscribedConnections).Keys * closing
    {
      hide LeftRecords;
      ghost var before := subscribedConnections;
      var keys := subscribedConnections.Keys;
      gone := {};
      LeftNone(subscribedConnections, owner, pits, handles, recoverableSubs);
      assert before - {} == before;
      while keys != {}
        modifies this`subscribedConnections, this`owner, this`removing, this`recoverableSubs
        invariant keys <= before.Keys && gone <= before.Keys * closing && gone !! keys
        invariant forall c <- before.Keys :: c in keys || c in gone || c !in closing
        invariant subscribedConnections == before - gone
        invariant removing == old(removing)
        invariant owner == (if old(owner).Some? && old(owner).value in gone then None else old(owner))
        invariant old(Abandoned(closing, handles, removeAfterOwnerRemoved)) ==> old(owner).value in keys
        invariant LeftRecords(gone, before, old(owner), pits, handles, old(recoverableSubs), recoverableSubs)
        decreases keys
      {
        var conn :| conn in keys;
        keys := keys - {conn};
        if conn in closing {
          LeftOneMore(gone, conn, before, old(owner), pits, handles, old(recoverableSubs), recoverableSubs);
          RecordSame(conn, before, subscribedConnections, old(owner), owner, handles);
          var abandon := Forget(conn, pits, handles, removeAfterOwnerRemoved);
          gone := gone + {conn};
          if abandon {
            return;
          }
        }
      }
    }

    /** One closing connection; the result says whether the channel is being removed. */
    method Forget(conn: Conn, pits: map<Conn, Pit>, handles: map<Conn, RecoverHandle>, removeAfterOwnerRemoved: bool)
      returns (abandon: bool)
      requires conn in subscribedConnections && handles.Keys <= pits.Keys
      modifies this`subscribedConnections, this`owner, this`removing, this`recoverableSubs
      ensures subscribedConnections == old(subscribedConnections) - {conn}
      ensures owner == if old(owner) == Some(conn) then None else old(owner)
      ensures abandon <==> old(owner) == Some(conn) && removeAfterOwnerRemoved && conn !in handles
      ensures removing == (old(removing) || abandon)
      ensures recoverableSubs == if conn in handles
                then
                  var sub := old(subscribedConnections)[conn];
                  old(recoverableSubs)[pits[conn] :=
                    RecoverableSubscription(handles[conn], old(owner) == Some(conn), sub.subTime, sub.options)]
                else old(recoverableSubs)
    {
      if conn in handles {
        var isOwner := owner == Some(conn);
        var sub := subscribedConnections[conn];
        recoverableSubs := recoverableSubs[pits[conn] :=
          RecoverableSubscription(handles[conn], isOwner, sub.subTime, sub.options)];
      }
      subscribedConnections := subscribedConnections - {conn};
      abandon := false;
      if owner == Some(conn) {
        owner := None;
        if removeAfterOwnerRemoved && conn !in handles {
          removing := true;
          abandon := true;
        }
      }
    }

    lemma Forgotten(start: State, closing: set<Conn>)
      requires Valid() && View() == start.(subs := subscribedConnections)
      requires ElementsMatch(start, nextElement) && TablesAgree(start, spatialSubscribers, isSpatial, closing)
      requires SubMap(start.subs - closing, subscribedConnections) && SubMap(subscribedConnections, start.subs)
      ensures Agreed(closing)
    {
      hide Entries, Distinct, ElementsMatch, TablesAgree;
      ForgettingAgrees(start, View(), nextElement, spatialSubscribers, isSpatial, closing);
    }

    predicate HasOwner(closing: set<Conn>)
      reads this
    {
      owner.Some? && owner.value !in closing
    }

    /** The records whose handle has its new connection. */
    ghost function NewConns(): map<Pit, Conn>
      reads this, set p | p in recoverableSubs :: recoverableSubs[p].handle
    {
      map p | p in recoverableSubs && recoverableSubs[p].handle.newConn.Some? :: recoverableSubs[p].handle.newConn.value
    }

    ghost predicate AnyTimedOut()
      reads this, set p | p in recoverableSubs :: recoverableSubs[p].handle
    {
      exists p <- recoverableSubs.Keys :: recoverableSubs[p].handle.timedOut
    }

    /** What the records in `done` have restored so far. */
    ghost predicate Restored(records: map<Pit, RecoverableSubscription>, newConns: map<Pit, Conn>, done: set<Pit>,
                             start: Option<Conn>, hadOwner: bool, subs: map<Conn, Subscription>, closing: set<Conn>)
      reads this
    {
      && Agreed(closing)
      && done <= newConns.Keys <= records.Keys
      && recoverableSubs == records - done
      && OwnerRestored(records, newConns, done, start, hadOwner, owner)
      && SubsRestored(records, newConns, done, closing, subs, subscribedConnections)
      && hadOwner == (start.Some? && start.value !in closing)
    }

    lemma RestoringStarts(closing: set<Conn>)
      requires Agreed(closing)
      ensures Restored(recoverableSubs, NewConns(), {}, owner, HasOwner(closing), subscribedConnections, closing)
    {
      hide Entries, Distinct, ElementsMatch, TablesAgree;
      RestoredNone(recoverableSubs, NewConns(), closing, owner, HasOwner(closing), subscribedConnections);
      assert recoverableSubs - {} == recoverableSubs;
    }

    lemma RestoredMeans(records: map<Pit, RecoverableSubscription>, newConns: map<Pit, Conn>, done: set<Pit>,
                        start: Option<Conn>, hadOwner: bool, subs: map<Conn, Subscription>, closing: set<Conn>)
      requires Restored(records, newConns, done, start, hadOwner, subs, closing)
      ensures recoverableSubs == records - done && Agreed(closing)
    {
    }

    /** One record whose handle has found its new connection. */
    method Restore(key: Pit, newConn: Conn, now: Time, defaults: Options, closing: set<Conn>,
                   ghost records: map<Pit, RecoverableSubscription>, ghost newConns: map<Pit, Conn>,
                   ghost done: set<Pit>, ghost start: Option<Conn>, ghost hadOwner: bool,
                   ghost subs: map<Conn, Subscription>)
      requires Restored(records, newConns, done, start, hadOwner, subs, closing) && defaults.masks == []
      requires key in recoverableSubs && key in newConns && newConn == newConns[key]
      modifies this
      ensures removing == old(removing) && DataView() == old(DataView())
      ensures Restored(records, newConns, done + {key}, start, hadOwner, subs, closing)
    {
      hide Entries, Distinct, ElementsMatch, TablesAgree, OwnerRestored, SubsRestored, MergeOptions, Subscribed,
           FullChange;
      var value := recoverableSubs[key];
      SubsOneMore(records, newConns, done, key, closing, subs, View(), now, defaults, nextElement);
      RestoreOwner(key, newConn, closing, records, newConns, done, start, hadOwner);
      var change := FullChange(value.oldSubOptions.(skipFirst := true));
      var cs, _ := SubscribeToChannel(newConn, Some(change), now, defaults, closing);
      recoverableSubs := recoverableSubs - {key};
    }

    method RestoreOwner(key: Pit, newConn: Conn, closing: set<Conn>, ghost records: map<Pit, RecoverableSubscription>,
                        ghost newConns: map<Pit, Conn>, ghost done: set<Pit>, ghost start: Option<Conn>,
                        ghost hadOwner: bool)
      requires OwnerRestored(records, newConns, done, start, hadOwner, owner)
      requires hadOwner == (start.Some? && start.value !in closing)
      requires key in recoverableSubs && key in records && records[key] == recoverableSubs[key]
      requires key in newConns && newConn == newConns[key]
      modifies this`owner
      ensures OwnerRestored(records, newConns, done + {key}, start, hadOwner, owner)
    {
      hide OwnerRestored;
      OwnerStill(records, newConns, done, start, hadOwner, owner);
      OwnerOneMore(records, newConns, done, key, start, hadOwner, owner, HasOwner(closing));
      var value := recoverableSubs[key];
      if value.isOwner {
        if !HasOwner(closing) {
          owner := Some(newConn);
        }
      }
    }

    /**
     Restores the records whose handle has found its new connection: the ownership, if nobody
     has it, and the subscription. A record that has timed out drops all of them.
     */
    method TickRecoverableSubscriptions(now: Time, defaults: Options, closing: set<Conn>, removeAfterOwnerRemoved: bool)
      requires Agreed(closing) && defaults.masks == []
      modifies this
      ensures Agreed(closing) && DataView() == old(DataView())
      ensures old(AnyTimedOut()) ==> recoverableSubs == map[] && removing == (old(removing) || removeAfterOwnerRemoved)
      ensures !old(AnyTimedOut()) ==>
                && removing == old(removing)
                && Restored(old(recoverableSubs), old(NewConns()), old(NewConns()).Keys,
                            old(owner), old(HasOwner(closing)), old(subscribedConnections), closing)
    {
      hide Entries, Distinct, ElementsMatch, TablesAgree, Restored;
      ghost var records, newConns, subs, hadOwner :=
          recoverableSubs, NewConns(), subscribedConnections, HasOwner(closing);
      ghost var start := owner;
      ghost var done: set<Pit> := {};
      var keys := recoverableSubs.Keys;
      RestoringStarts(closing);
      while keys != {}
        invariant keys <= records.Keys && done <= newConns.Keys && done !! keys
        invariant newConns.Keys <= keys + done && removing == old(removing) && DataView() == old(DataView())
        invariant forall p <- records.Keys - keys :: !records[p].handle.timedOut
        invariant Restored(records, newConns, done, start, hadOwner, subs, closing)
        decreases keys
      {
        var key :| key in keys;
        keys := keys - {key};
        RestoredMeans(records, newConns, done, start, hadOwner, subs, closing);
        var value := recoverableSubs[key];
        if value.handle.timedOut {
          recoverableSubs := map[];
          if removeAfterOwnerRemoved {
            removing := true;
          }
          return;
        }
        if value.handle.newConn.Some? {
          Restore(key, value.handle.newConn.value, now, defaults, closing, records, newConns, done, start, hadOwner,
              subs);
          done := done + {key};
        }
      }
      assert done == newConns.Keys;
      RestoredMeans(records, newConns, done, start, hadOwner, subs, closing);
    }

    // ---------------------------------------------------------- the tick

    /** What holds at every point of a tick's walk of the queue. */
    ghost predicate Walking(start: State, steps: seq<Step>, focp: nat, t: Time, closing: set<Conn>)
      reads this
    {
      && Valid() && focp <= |fanOutQueue| && msg.Some? && start.msg.Some?
      && PositiveIntervals(View(), t, closing) && PositiveIntervals(start, t, closing)
      && SameEntries(start, View(), closing) && Walked(start, steps, View(), t, closing)
      && SettledUpTo(focp, fanOutQueue, subscribedConnections, t, closing)
      && (HarmlessMasks(start, t, closing) ==>
            HarmlessMasks(View(), t, closing) && Ticked(View(), t, closing) == Ticked(start, t, closing))
    }

    ghost function Remaining(t: Time, closing: set<Conn>): nat
      requires Valid()
      reads this
    {
      TotalWork(fanOutQueue, View(), t, closing)
    }

    method DropClosing(focp: nat, ghost start: State, ghost steps: seq<Step>, t: Time, closing: set<Conn>)
      requires Walking(start, steps, focp, t, closing)
      requires focp < |fanOutQueue| && fanOutQueue[focp].conn in closing
      modifies this`fanOutQueue
      ensures Valid() && Walking(start, steps + [Drops(old(fanOutQueue[focp].conn))], focp, t, closing)
      ensures |fanOutQueue| == |old(fanOutQueue)| - 1 && Remaining(t, closing) <= old(Remaining(t, closing))
    {
      hide Distinct, Entries, Ticked, TotalWork, HarmlessMasks, PositiveIntervals, RemoveAt, SettledUpTo, SameEntries,
           Walked;
      ghost var q, s, c := fanOutQueue, View(), fanOutQueue[focp].conn;
      EntriesAt(q, focp);
      WalkedSnoc(start, steps, s, Drops(c), t, closing);
      RemoveAtEntries(q, focp);
      RemoveAtWork(q, focp, s, t, closing);
      TickedWithoutClosing(s, c, t, closing);
      SameAfterRemoval(start, s, c, closing);
      fanOutQueue := RemoveAt(fanOutQueue, focp);
      TotalWorkSame(fanOutQueue, s, View(), t, closing);
      SettledSamePrefix(focp, q, fanOutQueue, subscribedConnections, t, closing);
    }

    method ServeDue(focp: nat, ghost start: State, ghost steps: seq<Step>, t: Time, ghost closing: set<Conn>)
      requires Walking(start, steps, focp, t, closing) && focp < |fanOutQueue|
      requires var e := fanOutQueue[focp];
               Readable(View(), e.conn, closing) && Due(e, subscribedConnections[e.conn].options, t)
      modifies this`msg, this`accumulatedUpdateMsg, this`fanOutQueue, this`sent
      ensures Valid() && Walking(start, steps + [Serves(old(fanOutQueue[focp].conn))], focp, t, closing)
      ensures |fanOutQueue| == |old(fanOutQueue)| && Remaining(t, closing) < old(Remaining(t, closing))
    {
      hide Distinct, Ticked, TotalWork, HarmlessMasks, PositiveIntervals, Due, Overdue, ServeOne,
           ServedEntry, ServedMessages, SettledUpTo, SameEntries, Walked;
      ghost var q, s, foc := fanOutQueue, View(), fanOutQueue[focp];
      EntriesAt(q, focp);
      hide Entries;
      WalkedSnoc(start, steps, s, Serves(foc.conn), t, closing);
      TickedAfterServing(s, foc.conn, t, closing);
      if HarmlessMasks(start, t, closing) {
        HarmlessFirst(s, foc.conn, t, closing);
      }
      ghost var m := LiveAfter(s, foc.conn);
      SameAfterServing(start, s, foc.conn, t, closing, m);
      ServeOneWithMessage(s, foc.conn, t, closing, m);
      Serve(focp, t, closing);
      SettledSamePrefix(focp, q, fanOutQueue, subscribedConnections, t, closing);
    }

    lemma WalkOn(start: State, steps: seq<Step>, focp: nat, t: Time, closing: set<Conn>)
      requires Walking(start, steps, focp, t, closing) && focp < |fanOutQueue|
      requires Settled(fanOutQueue[focp], subscribedConnections, t, closing)
      ensures Walking(start, steps, focp + 1, t, closing)
    {
      SettledNext(focp, fanOutQueue, subscribedConnections, t, closing);
    }

    lemma WalkStarts(t: Time, closing: set<Conn>)
      requires Valid() && msg.Some? && PositiveIntervals(View(), t, closing)
      ensures Walking(View(), [], 0, t, closing)
    {
      hide Entries, Distinct, Ticked, HarmlessMasks, PositiveIntervals;
    }

    /**
     The fan-out of one tick. It ends, nobody is left due, and what it does is a walk of enabled steps.
     Unless a first fan-out filters the live data, every connection is sent what its own loop would send it.
     */
    method TickData(t: Time, closing: set<Conn>) returns (ghost steps: seq<Step>)
      requires Valid()
      requires initialized && msg.Some? ==> PositiveIntervals(View(), t, closing)
      modifies this`msg, this`accumulatedUpdateMsg, this`fanOutQueue, this`sent
      ensures Valid()
      ensures !initialized || old(msg).None? ==> View() == old(View()) && fanOutQueue == old(fanOutQueue)
      ensures initialized && old(msg).Some? ==>
                && AllServed(old(View()), View(), t, closing) && Walked(old(View()), steps, View(), t, closing)
                && SentMasked(old(sent), sent, subscribedConnections)
                && forall c <- subscribedConnections.Keys * Entries(fanOutQueue).Keys ::
                     c !in closing && subscribedConnections[c].options.access != NO_ACCESS ==>
                       t < Entries(fanOutQueue)[c].last + subscribedConnections[c].options.intervalMs * 1_000_000
      ensures initialized && old(msg).Some? && HarmlessMasks(old(View()), t, closing) ==>
                View() == Ticked(old(View()), t, closing)
      ensures old(Agreed(closing)) ==> Agreed(closing)
    {
      steps := [];
      if !initialized || msg.None? {
        return;
      }
      hide PositiveIntervals, HarmlessMasks, Ticked, Walking, Remaining, AllServed, Entries, Distinct, ElementsMatch,
           TablesAgree, Walked, SentMasked;
      ghost var start := View();
      WalkStarts(t, closing);
      var focp := 0;
      while focp < |fanOutQueue|
        modifies this`msg, this`accumulatedUpdateMsg, this`fanOutQueue, this`sent
        invariant Valid() && Walking(start, steps, focp, t, closing) && focp <= |fanOutQueue|
        decreases Remaining(t, closing), |fanOutQueue| - focp
      {
        var foc := fanOutQueue[focp];
        if foc.conn in closing {
          DropClosing(focp, start, steps, t, closing);
          steps := steps + [Drops(foc.conn)];
          continue;
        }
        if foc.conn !in subscribedConnections || subscribedConnections[foc.conn].options.access == NO_ACCESS {
          WalkOn(start, steps, focp, t, closing);
          focp := focp + 1;
          continue;
        }
        var cs := subscribedConnections[foc.conn];
        var nextFanOutTime := AddMs(foc.last, cs.options.intervalMs);
        if t >= nextFanOutTime {
          ServeDue(focp, start, steps, t, closing);
          steps := steps + [Serves(foc.conn)];
        } else {
          WalkOn(start, steps, focp, t, closing);
          focp := focp + 1;
        }
      }
      WalkEnds(start, steps, t, closing);
      WalkSendsMasked(start, steps, View(), t, closing);
      ServedInTime(start, View(), t, closing);
      TickKeepsAgreement(start, t, closing);
    }

    lemma TickKeepsAgreement(start: State, t: Time, closing: set<Conn>)
      requires Valid() && AllServed(start, View(), t, closing)
      ensures ElementsMatch(start, nextElement) && TablesAgree(start, spatialSubscribers, isSpatial, closing) ==>
                Agreed(closing)
    {
      hide Entries, Distinct, ElementsMatch, TablesAgree;
      if ElementsMatch(start, nextElement) && TablesAgree(start, spatialSubscribers, isSpatial, closing) {
        ForgettingAgrees(start, View(), nextElement, spatialSubscribers, isSpatial, closing);
      }
    }

    lemma WalkEnds(start: State, steps: seq<Step>, t: Time, closing: set<Conn>)
      requires Walking(start, steps, |fanOutQueue|, t, closing)
      ensures Valid() && AllServed(start, View(), t, closing) && Walked(start, steps, View(), t, closing)
      ensures HarmlessMasks(start, t, closing) ==> View() == Ticked(start, t, closing)
    {
      hide Distinct, Ticked, HarmlessMasks, SettledUpTo, Due, Walked;
      EntriesSettled(t, closing);
      SameAtEnd(start, View(), closing);
    }

    /** When the walk is through, there is nothing left for the tick to do. */
    lemma EntriesSettled(t: Time, closing: set<Conn>)
      requires Valid() && msg.Some? && PositiveIntervals(View(), t, closing)
      requires SettledUpTo(|fanOutQueue|, fanOutQueue, subscribedConnections, t, closing)
      ensures forall c <- View().queue.Keys ::
                && c !in closing
                && (Readable(View(), c, closing) ==> !Due(View().queue[c], subscribedConnections[c].options, t))
      ensures Ticked(View(), t, closing) == View()
    {
      hide Due, Ticked;
      forall c | c in View().queue
        ensures c !in closing
                  && (Readable(View(), c, closing) ==> !Due(View().queue[c], subscribedConnections[c].options, t))
      {
        var e :| e in fanOutQueue && e.conn == c;
        var k :| 0 <= k < |fanOutQueue| && fanOutQueue[k] == e;
        EntriesAt(fanOutQueue, k);
      }
      TickedWhenSettled(View(), t, closing);
    }
  }

  /** What a scan does with its next update, and at the end of the buffer. */
  lemma SelectOne(buffer: seq<Update>, i: nat, low: Time, high: Time, conn: Conn, skipSelf: bool)
    requires i < |buffer|
    ensures var u := buffer[i];
            Select(buffer, i, low, high, conn, skipSelf) ==
              if !(u.sender == conn && skipSelf) && low <= u.arrivalTime <= high then
                [u] + Select(buffer, i + 1, u.arrivalTime, high, conn, skipSelf)
              else Select(buffer, i + 1, low, high, conn, skipSelf)
  {
  }

  /** Updates taken already, and those that the scan has still to take. */
  function Taken(taken: seq<Update>, later: seq<Update>): seq<Update> {
    taken + later
  }

  function Snoc(taken: seq<Update>, u: Update): seq<Update> {
    taken + [u]
  }

  function LastIndex(us: seq<Update>): nat {
    if us == [] then 0 else us[|us| - 1].index
  }

  lemma NothingTaken(all: seq<Update>)
    ensures all == Taken([], all) && Fold(map[], []) == map[] && LastIndex([]) == 0
  {
  }

  lemma NothingLeft(taken: seq<Update>)
    ensures Taken(taken, []) == taken
    ensures taken != [] ==> LastIndex(taken) == taken[|taken| - 1].index
  {
  }

  lemma TakeOne(taken: seq<Update>, u: Update, later: seq<Update>)
    ensures Taken(taken, [u] + later) == Taken(Snoc(taken, u), later)
    ensures Fold(map[], Snoc(taken, u)) == Fold(map[], taken) + u.msg
    ensures taken == [] ==> Fold(map[], Snoc(taken, u)) == u.msg
    ensures Snoc(taken, u) != [] && LastIndex(Snoc(taken, u)) == u.index
  {
    assert taken + ([u] + later) == (taken + [u]) + later;
    FoldSnoc(map[], taken, u);
    assert map[] + u.msg == u.msg;
  }

  lemma SelectNone(buffer: seq<Update>, low: Time, high: Time, conn: Conn, skipSelf: bool)
    ensures Select(buffer, |buffer|, low, high, conn, skipSelf) == []
  {
  }

  /** The first `n` entries are not due, and none of them is of a closing connection. */
  ghost predicate SettledUpTo(n: nat, q: seq<Entry>, subs: map<Conn, Subscription>, t: Time, closing: set<Conn>)
    requires n <= |q|
  {
    forall k | 0 <= k < n :: Settled(q[k], subs, t, closing)
  }

  // ------------------------------------------------------- new subscriptions

  /**
   A new subscriber is due from its delay and its interval on. Until then no walk sends it anything; from then on it
   is a newcomer, if it may read and does not skip its first fan-out.
   */
  lemma NewSubscribersWait(s: State, c: Conn, change: Option<OptionsChange>, now: Time, defaults: Options, element: nat,
                           steps: seq<Step>, end: State, t: Time, closing: set<Conn>)
    requires c !in s.subs && c !in closing
    ensures var s' := Subscribed(s, c, change, now, defaults, element);
            var o := s'.subs[c].options;
            var start := now + (o.delayMs + o.intervalMs) * 1_000_000;
            && (t < start && Walked(s', steps, end, t, closing) ==>
                  c in end.queue && c in end.sent && end.queue[c] == s'.queue[c] && end.sent[c] == s'.sent[c])
            && (s'.msg.Some? && o.access != NO_ACCESS && !o.skipFirst && o.intervalMs > 0 ==>
                  (Newcomer(s', c, t, closing) <==> start <= t))
  {
    var s' := Subscribed(s, c, change, now, defaults, element);
    hide Walked, MergeChange;
    if Bystander(s', c, t, closing) && Walked(s', steps, end, t, closing) {
      BystandersAreLeftAlone(s', steps, end, c, t, closing);
    }
  }

  /** While an open reader with interval 0 is due, no walk comes to the end of the queue. */
  lemma ZeroIntervalNeverSettles(s: State, steps: seq<Step>, end: State, q: seq<Entry>, d: Conn, t: Time,
                                 closing: set<Conn>)
    requires Insatiable(s, d, t, closing) && Walked(s, steps, end, t, closing)
    requires Distinct(q) && Entries(q) == end.queue
    ensures !SettledUpTo(|q|, q, end.subs, t, closing)
  {
    ZeroIntervalIsAlwaysDue(s, steps, end, d, t, closing);
    hide Walked;
    var k := InEntries(q, d);
    assert !Settled(q[k], end.subs, t, closing);
  }

  predicate Settled(e: Entry, subs: map<Conn, Subscription>, t: Time, closing: set<Conn>) {
    && e.conn !in closing
    && (e.conn in subs && subs[e.conn].options.access != NO_ACCESS ==> !Due(e, subs[e.conn].options, t))
  }

  lemma SettledSamePrefix(n: nat, q: seq<Entry>, q': seq<Entry>, subs: map<Conn, Subscription>, t: Time,
                          closing: set<Conn>)
    requires n <= |q| && n <= |q'| && SettledUpTo(n, q, subs, t, closing)
    requires forall k | 0 <= k < n :: q'[k] == q[k]
    ensures SettledUpTo(n, q', subs, t, closing)
  {
    hide Settled;
  }

  lemma SettledNext(n: nat, q: seq<Entry>, subs: map<Conn, Subscription>, t: Time, closing: set<Conn>)
    requires n < |q| && SettledUpTo(n, q, subs, t, closing) && Settled(q[n], subs, t, closing)
    ensures SettledUpTo(n + 1, q, subs, t, closing)
  {
    hide Settled;
  }

  // ------------------------------------------------ closing and recovering

  ghost predicate SubMap<K, V>(m: map<K, V>, n: map<K, V>) {
    m.Keys <= n.Keys && forall k <- m.Keys :: m[k] == n[k]
  }

  /** The records that the given closed connections leave behind, on top of `before`. */
  ghost predicate LeftRecords(closed: set<Conn>, subs: map<Conn, Subscription>, owner: Option<Conn>,
                              pits: map<Conn, Pit>, handles: map<Conn, RecoverHandle>,
                              before: map<Pit, RecoverableSubscription>, after: map<Pit, RecoverableSubscription>)
  {
    && closed <= subs.Keys && handles.Keys <= pits.Keys
    && (forall p <- before.Keys :: p in after)
    && (forall p <- after.Keys ::
          || (p in before && after[p] == before[p])
          || exists c <- closed * handles.Keys :: pits[c] == p && after[p] == RecordOf(c, subs, owner, handles))
    && (forall c <- closed * handles.Keys ::
          && pits[c] in after
          && ((forall d <- closed * handles.Keys :: d != c ==> pits[d] != pits[c]) ==>
                after[pits[c]] == RecordOf(c, subs, owner, handles)))
  }

  function RecordOf(c: Conn, subs: map<Conn, Subscription>, owner: Option<Conn>, handles: map<Conn, RecoverHandle>)
    : RecoverableSubscription
    requires c in subs && c in handles
  {
    RecoverableSubscription(handles[c], owner == Some(c), subs[c].subTime, subs[c].options)
  }

  lemma RecordSame(c: Conn, subs: map<Conn, Subscription>, subs': map<Conn, Subscription>,
                   owner: Option<Conn>, owner': Option<Conn>, handles: map<Conn, RecoverHandle>)
    requires c in subs && c in subs' && subs'[c] == subs[c]
    requires owner' == owner || (owner'.None? && owner != Some(c))
    ensures c in handles ==> RecordOf(c, subs', owner', handles) == RecordOf(c, subs, owner, handles)
  {
  }

  lemma LeftNone(subs: map<Conn, Subscription>, owner: Option<Conn>, pits: map<Conn, Pit>,
                 handles: map<Conn, RecoverHandle>, records: map<Pit, RecoverableSubscription>)
    requires handles.Keys <= pits.Keys
    ensures LeftRecords({}, subs, owner, pits, handles, records, records)
  {
  }

  lemma LeftOneMore(closed: set<Conn>, c: Conn, subs: map<Conn, Subscription>, owner: Option<Conn>,
                    pits: map<Conn, Pit>, handles: map<Conn, RecoverHandle>,
                    before: map<Pit, RecoverableSubscription>, after: map<Pit, RecoverableSubscription>)
    requires LeftRecords(closed, subs, owner, pits, handles, before, after) && c in subs && c !in closed
    ensures c in handles ==>
              LeftRecords(closed + {c}, subs, owner, pits, handles, before,
                  after[pits[c] := RecordOf(c, subs, owner, handles)])
    ensures c !in handles ==> LeftRecords(closed + {c}, subs, owner, pits, handles, before, after)
  {
    if c !in handles {
      assert (closed + {c}) * handles.Keys == closed * handles.Keys;
    } else {
      assert (closed + {c}) * handles.Keys == closed * handles.Keys + {c};
    }
  }

  /** The options of a subscription, as a request for exactly them. */
  function FullChange(o: Options): OptionsChange {
    OptionsChange(Some(o.access), o.masks, Some(o.intervalMs), Some(o.delayMs), Some(o.skipSelf), Some(o.skipFirst))
  }

  lemma FullChangeIsRestoring(defaults: Options, o: Options)
    requires defaults.masks == []
    ensures MergeOptions(defaults, FullChange(o)) == o
  {
    assert [] + o.masks == o.masks;
  }

  /** Of the restored records, one of an owner gives the channel back, unless it has an owner. */
  ghost predicate OwnerRestored(records: map<Pit, RecoverableSubscription>, newConns: map<Pit, Conn>, done: set<Pit>,
                                owner: Option<Conn>, hadOwner: bool, owner': Option<Conn>)
  {
    && done <= newConns.Keys <= records.Keys
    && (hadOwner || (forall p <- done :: !records[p].isOwner) ==> owner' == owner)
    && (!hadOwner && (exists p <- done :: records[p].isOwner) ==>
          exists p <- done :: records[p].isOwner && owner' == Some(newConns[p]))
  }

  lemma OwnerStill(records: map<Pit, RecoverableSubscription>, newConns: map<Pit, Conn>, done: set<Pit>,
                   owner: Option<Conn>, hadOwner: bool, owner': Option<Conn>)
    requires OwnerRestored(records, newConns, done, owner, hadOwner, owner')
    ensures done <= newConns.Keys <= records.Keys
    ensures (hadOwner || forall q <- done :: !records[q].isOwner) ==> owner' == owner
  {
  }

  lemma OwnerOneMore(records: map<Pit, RecoverableSubscription>, newConns: map<Pit, Conn>, done: set<Pit>, p: Pit,
                     owner: Option<Conn>, hadOwner: bool, owner': Option<Conn>, hasOwner: bool)
    requires OwnerRestored(records, newConns, done, owner, hadOwner, owner')
    requires p in newConns && p in records
    requires (hadOwner || forall q <- done :: !records[q].isOwner) ==> hasOwner == hadOwner
    ensures OwnerRestored(records, newConns, done + {p}, owner, hadOwner,
                          if records[p].isOwner && !hasOwner then Some(newConns[p]) else owner')
  {
  }

  /** The restored connections are subscribed; a new one gets the old options back. */
  ghost predicate SubsRestored(records: map<Pit, RecoverableSubscription>, newConns: map<Pit, Conn>, done: set<Pit>,
                               closing: set<Conn>, subs: map<Conn, Subscription>, subs': map<Conn, Subscription>)
  {
    && done <= newConns.Keys <= records.Keys
    && subs.Keys <= subs'.Keys
    && (forall c <- subs'.Keys :: c in closing || (forall p <- done :: newConns[p] != c) ==>
         c in subs && subs'[c] == subs[c])
    && (forall p <- done :: newConns[p] !in closing ==> newConns[p] in subs')
    && (forall p <- done ::
          && newConns[p] !in closing
          && newConns[p] !in subs
          && (forall q <- done :: q != p ==> newConns[q] != newConns[p])
          ==> newConns[p] in subs' && subs'[newConns[p]].options == records[p].oldSubOptions.(skipFirst := true))
  }

  lemma RestoredNone(records: map<Pit, RecoverableSubscription>, newConns: map<Pit, Conn>, closing: set<Conn>,
                     owner: Option<Conn>, hadOwner: bool, subs: map<Conn, Subscription>)
    requires newConns.Keys <= records.Keys
    ensures OwnerRestored(records, newConns, {}, owner, hadOwner, owner)
    ensures SubsRestored(records, newConns, {}, closing, subs, subs)
  {
  }

  lemma SubsOneMore(records: map<Pit, RecoverableSubscription>, newConns: map<Pit, Conn>, done: set<Pit>, p: Pit,
                    closing: set<Conn>, subs: map<Conn, Subscription>, s: State,
                    now: Time, defaults: Options, element: nat)
    requires SubsRestored(records, newConns, done, closing, subs, s.subs)
    requires p in newConns && p in records && p !in done && defaults.masks == []
    ensures var n := newConns[p];
            var change := FullChange(records[p].oldSubOptions.(skipFirst := true));
            var s' := if n in closing then s else Subscribed(s, n, Some(change), now, defaults, element);
            SubsRestored(records, newConns, done + {p}, closing, subs, s'.subs)
  {
    FullChangeIsRestoring(defaults, records[p].oldSubOptions.(skipFirst := true));
    hide MergeOptions, FullChange;
  }

  lemma OpenIsNotQueued(s: State, c: Conn, spatial: set<Conn>, isSpatial: bool, closing: set<Conn>)
    requires TablesAgree(s, spatial, isSpatial, closing) && c !in closing
    ensures c !in s.subs ==> c !in s.queue
    ensures c in s.subs && isSpatial ==> spatial + {c} == spatial
  {
  }

  lemma ReplaceThenMove(q: seq<Entry>, i: nat, j: nat, x: Entry)
    requires i <= j < |q|
    ensures MoveAfter(q[i := x], i, j, x) == MoveAfter(q, i, j, x)
  {
    assert q[i := x][..i] == q[..i];
    assert q[i := x][i + 1..j + 1] == q[i + 1..j + 1];
    assert q[i := x][j + 1..] == q[j + 1..];
  }

  lemma {:induction false} TotalWorkSame(q: seq<Entry>, s: State, s': State, t: Time, closing: set<Conn>)
    requires s'.subs == s.subs
    ensures TotalWork(q, s', t, closing) == TotalWork(q, s, t, closing)
  {
    if q != [] {
      TotalWorkSame(q[1..], s, s', t, closing);
    }
  }

  /** Harmless masks leave the live data as it is. */
  lemma HarmlessFirst(s: State, c: Conn, t: Time, closing: set<Conn>)
    requires Servable(s, c, t, closing) && HarmlessMasks(s, t, closing)
    ensures !s.queue[c].hadFirst ==> Filter(s.msg.value, s.subs[c].options.masks) == s.msg.value
  {
  }

  /** After a tick: the entries of the open connections, and no readable one of them due. */
  ghost predicate AllServed(s: State, s': State, t: Time, closing: set<Conn>) {
    && s'.subs == s.subs && s'.buffer == s.buffer && s'.msgIndex == s.msgIndex && s'.msg.Some?
    && s'.queue.Keys == s.queue.Keys - closing
    && (forall c <- s'.queue.Keys ::
          && s'.queue[c].element == s.queue[c].element
          && (Readable(s', c, closing) ==> !Due(s'.queue[c], s'.subs[c].options, t)))
  }

  lemma ServedInTime(s: State, s': State, t: Time, closing: set<Conn>)
    requires AllServed(s, s', t, closing)
    ensures forall c <- s'.subs.Keys * s'.queue.Keys ::
              c !in closing && s'.subs[c].options.access != NO_ACCESS ==>
                t < s'.queue[c].last + s'.subs[c].options.intervalMs * 1_000_000
  {
  }

  /** During a tick, entries only disappear with their closing connections. */
  ghost predicate SameEntries(s: State, s': State, closing: set<Conn>) {
    && s'.queue.Keys <= s.queue.Keys
    && s.queue.Keys - closing <= s'.queue.Keys
    && (forall c <- s'.queue.Keys :: s'.queue[c].element == s.queue[c].element)
    && s'.subs == s.subs && s'.buffer == s.buffer && s'.msgIndex == s.msgIndex
  }

  lemma SameAtEnd(s: State, s': State, closing: set<Conn>)
    requires SameEntries(s, s', closing) && s'.queue.Keys !! closing
    ensures s'.queue.Keys == s.queue.Keys - closing
    ensures forall c <- s'.queue.Keys :: s'.queue[c].element == s.queue[c].element
  {
  }

  lemma SameAfterRemoval(start: State, s: State, c: Conn, closing: set<Conn>)
    requires SameEntries(start, s, closing) && c in closing
    ensures SameEntries(start, s.(queue := s.queue - {c}), closing)
  {
  }

  /** The filtered live message matters to later first fan-outs only. */
  lemma ServeOneWithMessage(s: State, c: Conn, t: Time, closing: set<Conn>, m: Message)
    requires Servable(s, c, t, closing)
    ensures PositiveIntervals(ServeOne(s, c, t).(msg := Some(m)), t, closing)
    ensures ServeOne(s, c, t).msg == s.msg
    ensures s.msg == Some(m) ==> ServeOne(s, c, t).(msg := Some(m)) == ServeOne(s, c, t)
  {
    ServeOneKeeps(s, c, t, closing);
    hide Overdue, Window, Fold, Filter, ServedEntry;
  }

  lemma SameAfterServing(start: State, s: State, c: Conn, t: Time, closing: set<Conn>, m: Message)
    requires SameEntries(start, s, closing) && Servable(s, c, t, closing)
    ensures SameEntries(start, ServeOne(s, c, t).(msg := Some(m)), closing)
  {
    hide Overdue, Window, Fold, Filter;
  }
}

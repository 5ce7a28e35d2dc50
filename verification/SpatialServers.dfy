/** The spatial controller's server slots: handing out blocks, and subscribing to borders once all are out. */
module SpatialServers {
  import opened Prelude
  import opened SpatialGrid
  import opened ServerBlocks

  type Conn = nat   // a connection, by identity

  /** A slot is free when it has no connection, or a closing one. */
  predicate Free(slot: Option<Conn>, closing: set<Conn>) {
    slot.None? || slot.value in closing
  }

  /** The first free slot, or the number of slots. */
  ghost predicate FirstFree(connections: seq<Option<Conn>>, closing: set<Conn>, i: nat) {
    && i <= |connections| && (i < |connections| ==> Free(connections[i], closing))
    && forall j :: 0 <= j < i ==> !Free(connections[j], closing)
  }

  ghost predicate BlockPresent(g: Grid, slot: nat, channels: set<ChannelId>) {
    forall id :: OwnCell(g, slot, id) ==> id in channels
  }

  /** Slot `i` is `c`'s, and the channel is in its border. */
  ghost predicate Borders(g: Grid, connections: seq<Option<Conn>>, c: Conn, id: ChannelId, i: nat) {
    i < |connections| && connections[i] == Some(c) && InBorder(g, i, id)
  }

  /** The interests have grown by the borders of the first `n` servers. */
  ghost predicate HasBorders(g: Grid, connections: seq<Option<Conn>>, n: nat,
                             before: set<(Conn, ChannelId)>, now: set<(Conn, ChannelId)>) {
    forall c: Conn, id: ChannelId ::
      (c, id) in now <==> (c, id) in before || exists i: nat :: i < n && Borders(g, connections, c, id, i)
  }

  lemma NoServers(g: Grid, connections: seq<Option<Conn>>, before: set<(Conn, ChannelId)>)
    ensures HasBorders(g, connections, 0, before, before)
  {
  }

  lemma OneMoreServer(g: Grid, connections: seq<Option<Conn>>, n: nat, start: set<(Conn, ChannelId)>,
                      before: set<(Conn, ChannelId)>, now: set<(Conn, ChannelId)>, ids: seq<ChannelId>)
    requires n < |connections| && connections[n].Some?
    requires HasBorders(g, connections, n, start, before)
    requires forall id :: id in ids <==> InBorder(g, n, id)
    requires now == before + set id | id in ids :: (connections[n].value, id)
    ensures HasBorders(g, connections, n + 1, start, now)
  {
    hide InBorder;
    forall c: Conn, id: ChannelId
      ensures (c, id) in now <==> (c, id) in start || exists i: nat :: i < n + 1 && Borders(g, connections, c, id, i)
    {
      assert (c, id) in now <==> (c, id) in before || Borders(g, connections, c, id, n);
    }
  }

  class Controller {
    const grid: Grid
    var connections: seq<Option<Conn>>
    var channels: set<ChannelId>
    var interests: set<(Conn, ChannelId)>

    /** Every slot that has a connection has its channels. */
    ghost predicate Valid()
      reads this
    {
      && |connections| == Slots(grid)
      && forall i :: 0 <= i < |connections| && connections[i].Some? ==> BlockPresent(grid, i, channels)
    }

    constructor (g: Grid)
      ensures Valid() && grid == g && channels == {} && interests == {}
      ensures forall i :: 0 <= i < |connections| ==> connections[i].None?
    {
      grid := g;
      connections := seq(Slots(g), i => None);
      channels := {};
      interests := {};
    }

    method NextServerIndex(closing: set<Conn>) returns (i: nat)
      ensures FirstFree(connections, closing, i)
    {
      i := 0;
      while i < |connections|
        invariant i <= |connections|
        invariant forall j :: 0 <= j < i ==> !Free(connections[j], closing)
      {
        if connections[i].None? || connections[i].value in closing {
          break;
        }
        i := i + 1;
      }
    }

    /** Forgets closing servers; their channels stay. */
    method Tick(closing: set<Conn>)
      requires Valid()
      modifies this`connections
      ensures Valid() && |connections| == old(|connections|)
      ensures forall i :: 0 <= i < |connections| ==>
                connections[i] == if Free(old(connections[i]), closing) then None else old(connections[i])
    {
      var i := 0;
      while i < |connections|
        modifies this`connections
        invariant i <= |connections| == old(|connections|)
        invariant forall j :: 0 <= j < i ==>
                    connections[j] == if Free(old(connections[j]), closing) then None else old(connections[j])
        invariant forall j :: i <= j < |connections| ==> connections[j] == old(connections[j])
      {
        if connections[i].Some? && connections[i].value in closing {
          connections := connections[i := None];
        }
        i := i + 1;
      }
    }

    ghost predicate AllTaken(closing: set<Conn>)
      reads this
    {
      forall i :: 0 <= i < |connections| ==> !Free(connections[i], closing)
    }

    /**
     Gives the first free slot's block to a server. That fails iff no slot is free or the block
     does not fit the grid; then nothing changes. Otherwise the slot is the server's and the
     channels of its block exist. When no slot is free any more, every server is subscribed to
     its border; `bordered` tells whether that was reached and did not fail.
     */
    method CreateChannels(conn: Conn, closing: set<Conn>)
      returns (created: Result<seq<ChannelId>>, bordered: bool, ghost slot: nat)
      requires Valid() && conn !in closing
      modifies this
      ensures Valid() && old(FirstFree(connections, closing, slot))
      ensures created.Ok? <==> slot < Slots(grid) && BlockFits(grid, slot)
      ensures created.Err? ==>
                && !bordered && connections == old(connections)
                && channels == old(channels) && interests == old(interests)
      ensures created.Ok? ==>
                && NoRepeats(created.value) && (forall id :: id in created.value <==> OwnCell(grid, slot, id))
                && channels == old(channels) + (set id | id in created.value)
                && slot < old(|connections|) && connections == old(connections)[slot := Some(conn)]
      ensures !AllTaken(closing) ==> interests == old(interests) && !bordered
      ensures created.Ok? && AllTaken(closing) ==>
                (bordered <==> forall i :: 0 <= i < |connections| ==> BorderSubscribable(grid, i, channels))
      ensures created.Ok? && AllTaken(closing) && BordersFit(grid) ==>
                bordered && HasBorders(grid, connections, |connections|, old(interests), interests)
    {
      hide InBorder, BordersFit, BorderSubscribable, BlockFits, Free, BlockPresent, OwnCell;
      bordered := false;
      var index := NextServerIndex(closing);
      slot := index;
      if index >= |connections| {
        return Err, false, index;
      }
      created := BlockChannels(grid, index);
      if created.Err? {
        return;
      }
      AddBlock(index, conn, created.value);
      var next := NextServerIndex(closing);
      if next == |connections| {
        bordered := SubscribeBorders(closing);
      }
    }

    method AddBlock(slot: nat, conn: Conn, ids: seq<ChannelId>)
      requires Valid() && slot < |connections| && forall id :: id in ids <==> OwnCell(grid, slot, id)
      modifies this`channels, this`connections
      ensures Valid() && connections == old(connections)[slot := Some(conn)]
      ensures channels == old(channels) + (set id | id in ids)
    {
      channels := channels + (set id | id in ids);
      connections := connections[slot := Some(conn)];
    }

    /** Subscribes each server to its border, stopping at an error. */
    method SubscribeBorders(closing: set<Conn>) returns (ok: bool)
      requires Valid() && AllTaken(closing)
      modifies this`interests
      ensures ok <==> forall i :: 0 <= i < |connections| ==> BorderSubscribable(grid, i, channels)
      ensures BordersFit(grid) ==>
                ok && HasBorders(grid, connections, |connections|, old(interests), interests)
    {
      AllCellsPresent(closing);
      hide InBorder, BordersFit, BorderSubscribable, AllPresent, AllTaken, NoRepeats, Slots, HasBorders, BlockPresent;
      NoServers(grid, connections, interests);
      for i := 0 to |connections|
        invariant forall k :: 0 <= k < i ==> BorderSubscribable(grid, k, channels)
        invariant BordersFit(grid) ==> HasBorders(grid, connections, i, old(interests), interests)
      {
        var conn := connections[i].value;
        var ids;
        ids, ok := SubToAdjacentChannels(grid, i, channels);
        if !ok {
          return;
        }
        ghost var before := interests;
        interests := interests + set id | id in ids :: (conn, id);
        if BordersFit(grid) {
          OneMoreServer(grid, connections, i, old(interests), before, interests, ids);
        }
      }
      ok := true;
    }

    /** When every slot is taken, every cell has a channel. */
    lemma AllCellsPresent(closing: set<Conn>)
      requires Valid() && AllTaken(closing)
      ensures AllPresent(grid, channels) && forall i :: 0 <= i < |connections| ==> connections[i].Some?
    {
      forall id: ChannelId | IsCell(grid, id) ensures id in channels {
        var slot := RegionAt(grid, id - grid.start).server;
        ServerIndexInRange(grid, id - grid.start);
        BlockIsTheServersRegions(grid, slot, id - grid.start);
        assert connections[slot].Some? && OwnCell(grid, slot, id);
      }
    }
  }
}

/**
 The keyby collector of an upstream task: records are batched per downstream, and
 watermarks and routing updates flush the batches and go to every channel.
 */
module Collector {
  import opened Types

  datatype Record = Record(id: nat, bucket: Bucket, size: nat)

  /** What is pushed to the output buffer of a downstream. */
  datatype Unit = Batch(records: seq<Record>) | Watermark(time: int) | InflightBarrier | TerminationSignal

  /** What a downstream sees of it. */
  datatype Item = Rec(r: Record) | Wm(time: int) | Barrier | End

  // ---------------------------------------------------------------- views

  function Items(records: seq<Record>): seq<Item> {
    seq(|records|, i requires 0 <= i < |records| => Rec(records[i]))
  }

  function ItemsOf(u: Unit): seq<Item> {
    match u
    case Batch(records) => Items(records)
    case Watermark(t) => [Wm(t)]
    case InflightBarrier => [Barrier]
    case TerminationSignal => [End]
  }

  function Flat(units: seq<Unit>): seq<Item> {
    if units == [] then [] else Flat(units[..|units| - 1]) + ItemsOf(units[|units| - 1])
  }

  lemma FlatAppend(units: seq<Unit>, u: Unit)
    ensures Flat(units + [u]) == Flat(units) + ItemsOf(u)
  {
    assert (units + [u])[..|units|] == units;
  }

  function Bytes(records: seq<Record>): nat {
    if records == [] then 0 else Bytes(records[..|records| - 1]) + records[|records| - 1].size
  }

  lemma BytesAppend(records: seq<Record>, r: Record)
    ensures Bytes(records + [r]) == Bytes(records) + r.size && Items(records + [r]) == Items(records) + [Rec(r)]
  {
    assert (records + [r])[..|records|] == records;
  }

  // ----------------------------------------------------------- specification

  /** Channels as the downstreams see them: open ones and those of removed
      downstreams. */
  datatype Channels = Channels(routing: seq<WorkerId>, open: map<WorkerId, seq<Item>>, closed: map<WorkerId, seq<Item>>)

  function Emitted(c: Channels, r: Record): Channels {
    if r.bucket < |c.routing| && c.routing[r.bucket] in c.open then
      c.(open := c.open[c.routing[r.bucket] := c.open[c.routing[r.bucket]] + [Rec(r)]])
    else c
  }

  function Broadcast(open: map<WorkerId, seq<Item>>, i: Item): map<WorkerId, seq<Item>> {
    map w | w in open :: open[w] + [i]
  }

  function WithWatermark(c: Channels, t: int): Channels {
    c.(open := Broadcast(c.open, Wm(t)))
  }

  /** One barrier on every old and new channel; then the removed ones end. */
  function Rerouted(c: Channels, add: set<WorkerId>, remove: set<WorkerId>, table: seq<WorkerId>): Channels {
    var all := Broadcast(c.open + Empty(add), Barrier);
    Channels(table, all - remove, c.closed + EndedView(all, remove))
  }

  // ------------------------------------------------------------- collector

  predicate Within(units: seq<Unit>, batchSize: nat) {
    forall i | 0 <= i < |units| && units[i].Batch? :: Bytes(units[i].records) <= batchSize
  }

  /** One downstream: what was pushed to it, the pending batch, and what it sees. */
  ghost predicate ChannelOk(queue: seq<Unit>, pending: seq<Record>, seen: seq<Item>, batchSize: nat) {
    Flat(queue) + Items(pending) == seen && Within(queue, batchSize) && Bytes(pending) <= batchSize
  }

  /** Pushing the pending batch changes nothing for the downstream. */
  lemma PushPending(queue: seq<Unit>, pending: seq<Record>, seen: seq<Item>, batchSize: nat)
    requires ChannelOk(queue, pending, seen, batchSize)
    ensures ChannelOk(queue + [Batch(pending)], [], seen, batchSize)
  {
    FlatAppend(queue, Batch(pending));
    assert Items([]) == [];
  }

  lemma AddPending(queue: seq<Unit>, pending: seq<Record>, seen: seq<Item>, batchSize: nat, r: Record)
    requires ChannelOk(queue, pending, seen, batchSize) && Bytes(pending) + r.size <= batchSize
    ensures ChannelOk(queue, pending + [r], seen + [Rec(r)], batchSize)
  {
    BytesAppend(pending, r);
  }

  lemma PushSignal(queue: seq<Unit>, seen: seq<Item>, batchSize: nat, u: Unit)
    requires ChannelOk(queue, [], seen, batchSize) && !u.Batch?
    ensures ChannelOk(queue + [u], [], seen + ItemsOf(u), batchSize)
  {
    FlatAppend(queue, u);
  }

  /** Adds a record to the pending batch, which is pushed first if the record does
      not fit. */
  method AddRecord(queue: seq<Unit>, pending: seq<Record>, r: Record, batchSize: nat, ghost seen: seq<Item>)
    returns (queue': seq<Unit>, pending': seq<Record>)
    requires ChannelOk(queue, pending, seen, batchSize) && r.size <= batchSize
    ensures ChannelOk(queue', pending', seen + [Rec(r)], batchSize)
  {
    queue', pending' := queue, pending;
    if r.size + Bytes(pending) > batchSize {
      PushPending(queue, pending, seen, batchSize);
      queue', pending' := queue + [Batch(pending)], [];
    }
    AddPending(queue', pending', seen, batchSize, r);
    pending' := pending' + [r];
  }

  type Queues = map<WorkerId, seq<Unit>>
  type Batches = map<WorkerId, seq<Record>>
  type Seen = map<WorkerId, seq<Item>>

  /** Worker w is not a downstream, or its channel is as it is seen. */
  ghost predicate At(queues: Queues, cur: Batches, open: Seen, batchSize: nat, w: WorkerId) {
    if w in queues then w in cur && w in open && ChannelOk(queues[w], cur[w], open[w], batchSize)
    else w !in cur && w !in open
  }

  ghost predicate Tracks(queues: Queues, cur: Batches, open: Seen, batchSize: nat) {
    forall w: WorkerId :: At(queues, cur, open, batchSize, w)
  }

  ghost predicate Ended(closed: Queues, seen: Seen, batchSize: nat) {
    forall w: WorkerId :: if w in closed then w in seen && ChannelOk(closed[w], [], seen[w], batchSize) else w !in seen
  }

  /** A change of one channel leaves the others alone. */
  lemma TrackOne(queues: Queues, cur: Batches, open: Seen, batchSize: nat, w: WorkerId, q: seq<Unit>, c: seq<Record>,
                 o: seq<Item>)
    requires Tracks(queues, cur, open, batchSize) && ChannelOk(q, c, o, batchSize)
    ensures Tracks(queues[w := q], cur[w := c], open[w := o], batchSize)
  {
    var queues', cur', open' := queues[w := q], cur[w := c], open[w := o];
    forall v: WorkerId ensures At(queues', cur', open', batchSize, v) { assert At(queues, cur, open, batchSize, v); }
  }

  lemma TrackAll(queues: Queues, queues': Queues, cur: Batches, open: Seen, batchSize: nat, u: Unit)
    requires Tracks(queues, cur, open, batchSize) && !u.Batch? && forall w | w in cur :: cur[w] == []
    requires queues'.Keys == queues.Keys && forall w | w in queues :: queues'[w] == queues[w] + [u]
    ensures Tracks(queues', cur, Broadcast(open, ItemsOf(u)[0]), batchSize)
  {
    forall w: WorkerId ensures At(queues', cur, Broadcast(open, ItemsOf(u)[0]), batchSize, w) {
      assert At(queues, cur, open, batchSize, w);
      if w in queues { PushSignal(queues[w], open[w], batchSize, u); }
    }
  }

  function Empty<T>(ws: set<WorkerId>): map<WorkerId, seq<T>> {
    map w | w in ws :: []
  }

  lemma TrackConnect(queues: Queues, cur: Batches, open: Seen, batchSize: nat, add: set<WorkerId>)
    requires Tracks(queues, cur, open, batchSize) && add !! queues.Keys
    ensures Tracks(queues + Empty(add), cur + Empty(add), open + Empty(add), batchSize)
  {
    assert Items([]) == [];
    forall w: WorkerId ensures At(queues + Empty(add), cur + Empty(add), open + Empty(add), batchSize, w) {
      assert At(queues, cur, open, batchSize, w);
    }
  }

  function Terminated(queues: Queues, remove: set<WorkerId>): Queues {
    map w | w in queues && w in remove :: queues[w] + [TerminationSignal]
  }

  function EndedView(open: Seen, remove: set<WorkerId>): Seen {
    map w | w in open && w in remove :: open[w] + [End]
  }

  lemma TrackDisconnect(queues: Queues, cur: Batches, open: Seen, closed: Queues, seen: Seen, batchSize: nat,
                        remove: set<WorkerId>)
    requires Tracks(queues, cur, open, batchSize) && Ended(closed, seen, batchSize)
    requires forall w | w in cur :: cur[w] == []
    ensures Tracks(queues - remove, Empty(queues.Keys - remove), open - remove, batchSize)
    ensures Ended(closed + Terminated(queues, remove), seen + EndedView(open, remove), batchSize)
  {
    forall w: WorkerId ensures At(queues - remove, Empty(queues.Keys - remove), open - remove, batchSize, w) {
      assert At(queues, cur, open, batchSize, w);
    }
    var closed', seen' := closed + Terminated(queues, remove), seen + EndedView(open, remove);
    forall w: WorkerId
      ensures if w in closed' then w in seen' && ChannelOk(closed'[w], [], seen'[w], batchSize) else w !in seen'
    {
      assert At(queues, cur, open, batchSize, w);
      if w in queues && w in remove { PushSignal(queues[w], open[w], batchSize, TerminationSignal); }
    }
  }

  class KeybyCollector {
    const batchSize: nat
    var routing: seq<WorkerId>
    var cur: Batches                   // pending batches
    var queues: Queues                 // pushed to the downstreams
    var closed: Queues                 // pushed to removed downstreams
    ghost var view: Channels           // what the downstreams see

    ghost predicate Valid()
      reads this
    {
      && view.routing == routing && (forall b | 0 <= b < |routing| :: routing[b] in queues)
      && Tracks(queues, cur, view.open, batchSize) && Ended(closed, view.closed, batchSize)
    }

    constructor (batchSize: nat, downstreams: set<WorkerId>, table: seq<WorkerId>)
      requires forall b | 0 <= b < |table| :: table[b] in downstreams
      ensures Valid() && this.batchSize == batchSize
      ensures view == Channels(table, map w | w in downstreams :: [], map[])
    {
      this.batchSize, routing := batchSize, table;
      cur, queues, closed := map w | w in downstreams :: [], map w | w in downstreams :: [], map[];
      view := Channels(table, map w | w in downstreams :: [], map[]);
      assert Items([]) == [];
    }

    /** A record goes to the downstream of its bucket. A record larger than a batch
        is fatal. */
    method Emit(r: Record)
      requires Valid() && r.bucket < |routing| && r.size <= batchSize
      modifies this`cur, this`queues, this`view
      ensures Valid() && view == Emitted(old(view), r)
    {
      var w := routing[r.bucket];
      assert At(queues, cur, view.open, batchSize, w);
      var q, c := AddRecord(queues[w], cur[w], r, batchSize, view.open[w]);
      TrackOne(queues, cur, view.open, batchSize, w, q, c, view.open[w] + [Rec(r)]);
      queues, cur := queues[w := q], cur[w := c];
      view := view.(open := view.open[w := view.open[w] + [Rec(r)]]);
    }

    /** Pushes every pending batch that is not empty. */
    method FlushAll()
      requires Tracks(queues, cur, view.open, batchSize)
      modifies this`cur, this`queues
      ensures Tracks(queues, cur, view.open, batchSize) && queues.Keys == old(queues.Keys)
      ensures forall w | w in cur :: cur[w] == []
    {
      var rest := cur.Keys;
      while rest != {}
        invariant rest <= cur.Keys && queues.Keys == old(queues.Keys) && Tracks(queues, cur, view.open, batchSize)
        invariant forall w | w in cur && w !in rest :: cur[w] == []
        decreases rest
      {
        var w: WorkerId :| w in rest;
        rest := rest - {w};
        assert At(queues, cur, view.open, batchSize, w);
        if |cur[w]| > 0 {
          PushPending(queues[w], cur[w], view.open[w], batchSize);
          TrackOne(queues, cur, view.open, batchSize, w, queues[w] + [Batch(cur[w])], [], view.open[w]);
          assert view.open[w := view.open[w]] == view.open;
          queues, cur := queues[w := queues[w] + [Batch(cur[w])]], cur[w := []];
        }
      }
    }

    /** Pushes a signal to every downstream. */
    method PushAll(u: Unit)
      requires Tracks(queues, cur, view.open, batchSize) && !u.Batch? && forall w | w in cur :: cur[w] == []
      modifies this`queues, this`view
      ensures queues.Keys == old(queues.Keys)
      ensures view == old(view).(open := Broadcast(old(view).open, ItemsOf(u)[0]))
      ensures Tracks(queues, cur, view.open, batchSize)
    {
      ghost var before := queues;
      var rest := queues.Keys;
      while rest != {}
        invariant rest <= queues.Keys == before.Keys && view == old(view)
        invariant forall w | w in queues :: queues[w] == if w in rest then before[w] else before[w] + [u]
        decreases rest
      {
        var w: WorkerId :| w in rest;
        rest := rest - {w};
        queues := queues[w := queues[w] + [u]];
      }
      TrackAll(before, queues, cur, view.open, batchSize, u);
      view := view.(open := Broadcast(view.open, ItemsOf(u)[0]));
    }

    method BroadcastWatermark(t: int)
      requires Valid()
      modifies this`cur, this`queues, this`view
      ensures Valid() && view == WithWatermark(old(view), t)
    {
      FlushAll();
      PushAll(Watermark(t));
    }

    method Connect(add: set<WorkerId>)
      requires Tracks(queues, cur, view.open, batchSize) && add !! queues.Keys && forall w | w in cur :: cur[w] == []
      modifies this`queues, this`cur, this`view
      ensures Tracks(queues, cur, view.open, batchSize) && queues.Keys == old(queues.Keys) + add
      ensures view == old(view).(open := old(view).open + Empty(add))
      ensures forall w | w in cur :: cur[w] == []
    {
      TrackConnect(queues, cur, view.open, batchSize, add);
      queues, cur, view := queues + Empty(add), cur + Empty(add), view.(open := view.open + Empty(add));
    }

    /** Ends the channels of removed downstreams and starts the others afresh. */
    method Disconnect(remove: set<WorkerId>)
      requires Tracks(queues, cur, view.open, batchSize) && Ended(closed, view.closed, batchSize)
      requires forall w | w in cur :: cur[w] == []
      modifies this`queues, this`cur, this`closed, this`view
      ensures Tracks(queues, cur, view.open, batchSize) && Ended(closed, view.closed, batchSize)
      ensures queues.Keys == old(queues.Keys) - remove
      ensures view == old(view).(open := old(view).open - remove,
              closed := old(view).closed + EndedView(old(view).open, remove))
    {
      TrackDisconnect(queues, cur, view.open, closed, view.closed, batchSize, remove);
      closed := closed + Terminated(queues, remove);
      cur := Empty(queues.Keys - remove);
      queues := queues - remove;
      view := view.(open := view.open - remove, closed := view.closed + EndedView(view.open, remove));
    }

    /** Flush, connect, barriers on all channels, then remove and reroute. A new
        downstream that exists and a removed one that does not are fatal. */
    method UpdateRouting(add: set<WorkerId>, remove: set<WorkerId>, table: seq<WorkerId>)
      requires Valid() && add !! queues.Keys && remove <= queues.Keys + add
      requires forall b | 0 <= b < |table| :: table[b] in queues.Keys + add - remove
      modifies this
      ensures Valid() && view == Rerouted(old(view), add, remove, table)
    {
      FlushAll();
      Connect(add);
      PushAll(InflightBarrier);
      Disconnect(remove);
      routing := table;
      view := view.(routing := table);
    }
  }

  // ------------------------------------------------------ barriers separate

  datatype Op =
    | EmitOp(r: Record)
    | WatermarkOp(t: int)
    | UpdateOp(add: set<WorkerId>, remove: set<WorkerId>, table: seq<WorkerId>)

  function Apply(c: Channels, op: Op): Channels {
    match op
    case EmitOp(r) => Emitted(c, r)
    case WatermarkOp(t) => WithWatermark(c, t)
    case UpdateOp(add, remove, table) => Rerouted(c, add, remove, table)
  }

  function Barriers(items: seq<Item>): nat {
    if items == [] then 0 else Barriers(items[..|items| - 1]) + if items[|items| - 1].Barrier? then 1 else 0
  }

  /** The record at position i of the channel of w was routed by the table that is
      as many updates after the one the channel started under as there are
      barriers in front of the record. */
  ghost predicate RoutedAt(items: seq<Item>, i: int, start: nat, tables: seq<seq<WorkerId>>, w: WorkerId)
    requires 0 <= i < |items|
  {
    items[i].Rec? ==>
      var e := start + Barriers(items[..i]);
      e < |tables| && items[i].r.bucket < |tables[e]| && tables[e][items[i].r.bucket] == w
  }

  ghost predicate Separated(items: seq<Item>, start: nat, tables: seq<seq<WorkerId>>, w: WorkerId) {
    forall i | 0 <= i < |items| :: RoutedAt(items, i, start, tables, w)
  }

  /** tables are the routing tables so far, the current one last; start says under
      which of them a channel was opened. */
  ghost predicate History(c: Channels, tables: seq<seq<WorkerId>>, start: map<WorkerId, nat>) {
    && tables != [] && c.routing == tables[|tables| - 1]
    && (forall w: WorkerId :: w in c.open ==> OpenOk(c.open[w], tables, start, w))
    && (forall w: WorkerId :: w in c.closed ==> ClosedOk(c.closed[w], tables, w))
  }

  ghost predicate OpenOk(items: seq<Item>, tables: seq<seq<WorkerId>>, start: map<WorkerId, nat>, w: WorkerId) {
    && w in start && start[w] + Barriers(items) == |tables| - 1 && Separated(items, start[w], tables, w)
    && End !in items
  }

  /** A removed channel ends with one termination signal, right after a barrier. */
  ghost predicate ClosedOk(items: seq<Item>, tables: seq<seq<WorkerId>>, w: WorkerId) {
    && |items| >= 2 && items[|items| - 1] == End && items[|items| - 2] == Barrier && End !in items[..|items| - 1]
    && exists s: nat :: Separated(items, s, tables, w)
  }

  lemma SeparatedNext(items: seq<Item>, x: Item, start: nat, tables: seq<seq<WorkerId>>, more: seq<seq<WorkerId>>,
                      w: WorkerId)
    requires Separated(items, start, tables, w)
    requires x.Rec? ==> start + Barriers(items) < |tables| && x.r.bucket < |tables[start + Barriers(items)]|
                        && tables[start + Barriers(items)][x.r.bucket] == w
    ensures Separated(items + [x], start, tables + more, w)
    ensures Barriers(items + [x]) == Barriers(items) + if x.Barrier? then 1 else 0
  {
    var items' := items + [x];
    assert items'[..|items|] == items;
    forall i | 0 <= i < |items'| ensures RoutedAt(items', i, start, tables + more, w) {
      if i < |items| {
        assert RoutedAt(items, i, start, tables, w);
        assert items'[..i] == items[..i];
      }
    }
  }

  lemma SeparatedMore(items: seq<Item>, start: nat, tables: seq<seq<WorkerId>>, more: seq<seq<WorkerId>>, w: WorkerId)
    requires Separated(items, start, tables, w)
    ensures Separated(items, start, tables + more, w)
  {
    forall i | 0 <= i < |items|
      ensures RoutedAt(items, i, start, tables + more, w)
    {
      assert RoutedAt(items, i, start, tables, w);
    }
  }

  lemma EmitHistory(c: Channels, r: Record, tables: seq<seq<WorkerId>>, start: map<WorkerId, nat>)
    requires History(c, tables, start)
    ensures History(Emitted(c, r), tables, start)
  {
    var c' := Emitted(c, r);
    assert tables + [] == tables;
    forall w: WorkerId | w in c'.open ensures OpenOk(c'.open[w], tables, start, w) {
      assert OpenOk(c.open[w], tables, start, w);
      if c'.open[w] != c.open[w] { SeparatedNext(c.open[w], Rec(r), start[w], tables, [], w); }
    }
  }

  lemma WatermarkHistory(c: Channels, t: int, tables: seq<seq<WorkerId>>, start: map<WorkerId, nat>)
    requires History(c, tables, start)
    ensures History(WithWatermark(c, t), tables, start)
  {
    var c' := WithWatermark(c, t);
    assert tables + [] == tables;
    forall w: WorkerId | w in c'.open ensures OpenOk(c'.open[w], tables, start, w) {
      assert OpenOk(c.open[w], tables, start, w);
      SeparatedNext(c.open[w], Wm(t), start[w], tables, [], w);
    }
  }

  function Started(c: Channels, start: map<WorkerId, nat>, add: set<WorkerId>, now: nat): map<WorkerId, nat> {
    start + map w | w in add :: now
  }

  /** An old channel with its barrier. */
  lemma OldBarrier(items: seq<Item>, tables: seq<seq<WorkerId>>, table: seq<WorkerId>, start: map<WorkerId, nat>,
                   start': map<WorkerId, nat>, w: WorkerId)
    requires tables != [] && OpenOk(items, tables, start, w) && w in start' && start'[w] == start[w]
    ensures OpenOk(items + [Barrier], tables + [table], start', w)
  {
    SeparatedNext(items, Barrier, start[w], tables, [table], w);
  }

  /** A new channel with its first barrier. */
  lemma NewBarrier(tables: seq<seq<WorkerId>>, table: seq<WorkerId>, start: map<WorkerId, nat>, w: WorkerId)
    requires tables != [] && w in start && start[w] == |tables| - 1
    ensures OpenOk([] + [Barrier], tables + [table], start, w)
  {
    SeparatedNext([], Barrier, start[w], tables, [table], w);
  }

  lemma Closing(items: seq<Item>, tables: seq<seq<WorkerId>>, start: map<WorkerId, nat>, w: WorkerId)
    requires OpenOk(items, tables, start, w) && items != [] && items[|items| - 1] == Barrier
    ensures ClosedOk(items + [End], tables, w)
  {
    SeparatedNext(items, End, start[w], tables, [], w);
    assert tables + [] == tables;
    assert (items + [End])[..|items|] == items;
    assert Separated(items + [End], start[w], tables, w);
  }

  lemma StillClosed(items: seq<Item>, tables: seq<seq<WorkerId>>, table: seq<WorkerId>, w: WorkerId)
    requires ClosedOk(items, tables, w)
    ensures ClosedOk(items, tables + [table], w)
  {
    var s: nat :| Separated(items, s, tables, w);
    SeparatedMore(items, s, tables, [table], w);
  }

  lemma BarrierOnAll(c: Channels, add: set<WorkerId>, table: seq<WorkerId>, tables: seq<seq<WorkerId>>,
                     start: map<WorkerId, nat>, w: WorkerId)
    requires History(c, tables, start) && add !! c.open.Keys && w in c.open.Keys + add
    ensures var all := Broadcast(c.open + Empty(add), Barrier);
            w in all && all[w] != [] && all[w][|all[w]| - 1] == Barrier
            && OpenOk(all[w], tables + [table], Started(c, start, add, |tables| - 1), w)
  {
    if w in c.open {
      assert OpenOk(c.open[w], tables, start, w);
      OldBarrier(c.open[w], tables, table, start, Started(c, start, add, |tables| - 1), w);
    } else {
      NewBarrier(tables, table, Started(c, start, add, |tables| - 1), w);
    }
  }

  lemma UpdateHistory(c: Channels, add: set<WorkerId>, remove: set<WorkerId>, table: seq<WorkerId>,
                      tables: seq<seq<WorkerId>>, start: map<WorkerId, nat>)
    requires History(c, tables, start) && add !! c.open.Keys
    ensures History(Rerouted(c, add, remove, table), tables + [table], Started(c, start, add, |tables| - 1))
  {
    var c', tables', start' := Rerouted(c, add, remove, table), tables + [table], Started(c, start, add, |tables| - 1);
    var all := Broadcast(c.open + Empty(add), Barrier);
    forall w: WorkerId | w in c'.open ensures OpenOk(c'.open[w], tables', start', w) {
      BarrierOnAll(c, add, table, tables, start, w);
    }
    forall w: WorkerId | w in c'.closed ensures ClosedOk(c'.closed[w], tables', w) {
      if w in all && w in remove {
        BarrierOnAll(c, add, table, tables, start, w);
        Closing(all[w], tables', start', w);
      } else {
        StillClosed(c.closed[w], tables, table, w);
      }
    }
  }

  /** The tables and the starts of the channels after a sequence of operations. */
  function TablesAfter(table: seq<WorkerId>, ops: seq<Op>): seq<seq<WorkerId>> {
    if ops == [] then [table]
    else
      var op := ops[|ops| - 1];
      TablesAfter(table, ops[..|ops| - 1]) + if op.UpdateOp? then [op.table] else []
  }

  function ChannelsAfter(c: Channels, ops: seq<Op>): Channels {
    if ops == [] then c else Apply(ChannelsAfter(c, ops[..|ops| - 1]), ops[|ops| - 1])
  }

  /** New downstreams are new. */
  ghost predicate Legal(c: Channels, ops: seq<Op>) {
    forall i | 0 <= i < |ops| && ops[i].UpdateOp? :: ops[i].add !! ChannelsAfter(c, ops[..i]).open.Keys
  }

  /** Over any sequence of emits, watermarks and routing updates: on every channel,
      open or removed, barriers separate the records routed by consecutive tables;
      an open channel has one barrier per update since it was opened. */
  lemma {:induction false} BarriersSeparate(c: Channels, ops: seq<Op>) returns (start: map<WorkerId, nat>)
    requires c.closed == map[] && (forall w | w in c.open :: c.open[w] == []) && Legal(c, ops)
    ensures History(ChannelsAfter(c, ops), TablesAfter(c.routing, ops), start)
  {
    if ops == [] {
      start := map w | w in c.open :: 0;
    } else {
      var n := |ops| - 1;
      var init, op := ops[..n], ops[n];
      forall i | 0 <= i < |init| && init[i].UpdateOp? ensures init[i].add !! ChannelsAfter(c, init[..i]).open.Keys {
        assert init[..i] == ops[..i];
      }
      var before := BarriersSeparate(c, init);
      var cs, tables := ChannelsAfter(c, init), TablesAfter(c.routing, init);
      assert tables + [] == tables;
      match op
      case EmitOp(r) => EmitHistory(cs, r, tables, before); start := before;
      case WatermarkOp(t) => WatermarkHistory(cs, t, tables, before); start := before;
      case UpdateOp(add, remove, table) =>
        UpdateHistory(cs, add, remove, table, tables, before);
        start := Started(cs, before, add, |tables| - 1);
    }
  }

  // --------------------------------------------------- what a channel carries

  /** The routing table in force after the first n operations. */
  function TableAt(table: seq<WorkerId>, ops: seq<Op>, n: nat): seq<WorkerId>
    requires n <= |ops|
  {
    if n == 0 then table else if ops[n - 1].UpdateOp? then ops[n - 1].table else TableAt(table, ops, n - 1)
  }

  /** w is a downstream after the first n operations. */
  predicate IsOpen(downstreams: set<WorkerId>, ops: seq<Op>, n: nat, w: WorkerId)
    requires n <= |ops|
  {
    if n == 0 then w in downstreams
    else
      match ops[n - 1]
      case UpdateOp(add, remove, _) => w !in remove && (w in add || IsOpen(downstreams, ops, n - 1, w))
      case _ => IsOpen(downstreams, ops, n - 1, w)
  }

  /** The last of the first n operations that added w, or the first one of all. */
  function OpenedAt(ops: seq<Op>, n: nat, w: WorkerId): (i: nat)
    requires n <= |ops|
    ensures i <= n
  {
    if n == 0 then 0
    else if ops[n - 1].UpdateOp? && w in ops[n - 1].add then n - 1
    else OpenedAt(ops, n - 1, w)
  }

  /** The last of the first n operations that removed w. */
  function ClosedAt(ops: seq<Op>, n: nat, w: WorkerId): (i: Option<nat>)
    requires n <= |ops|
    ensures i.Some? ==> i.value < n
  {
    if n == 0 then None
    else if ops[n - 1].UpdateOp? && w in ops[n - 1].remove then Some(n - 1)
    else ClosedAt(ops, n - 1, w)
  }

  /** What an operation is for downstream w: a record that the table gives to w,
      every watermark, and a barrier for every routing update. */
  function ItemsFor(op: Op, table: seq<WorkerId>, w: WorkerId): seq<Item> {
    match op
    case EmitOp(r) => if r.bucket < |table| && table[r.bucket] == w then [Rec(r)] else []
    case WatermarkOp(t) => [Wm(t)]
    case UpdateOp(_, _, _) => [Barrier]
  }

  /** All that the operations from lo to hi are for w, in order. */
  function Delivered(table: seq<WorkerId>, ops: seq<Op>, lo: nat, hi: nat, w: WorkerId): seq<Item>
    requires lo <= hi <= |ops|
  {
    if lo == hi then []
    else Delivered(table, ops, lo, hi - 1, w) + ItemsFor(ops[hi - 1], TableAt(table, ops, hi - 1), w)
  }

  /** What UpdateRouting asks for: new downstreams are new, removed ones are there,
      and the table names downstreams only. */
  ghost predicate UpdateOk(open: set<WorkerId>, op: Op) {
    op.UpdateOp? ==>
      && op.add !! open && op.remove <= open + op.add
      && forall b | 0 <= b < |op.table| :: op.table[b] in open + op.add - op.remove
  }

  ghost predicate UpdatesOk(c: Channels, ops: seq<Op>) {
    forall i | 0 <= i < |ops| :: UpdateOk(ChannelsAfter(c, ops[..i]).open.Keys, ops[i])
  }

  /** A collector that has sent nothing yet. */
  ghost predicate Unused(c: Channels) {
    && c.closed == map[] && (forall w | w in c.open :: c.open[w] == [])
    && forall b | 0 <= b < |c.routing| :: c.routing[b] in c.open
  }

  /** The channel of w after the first n operations, open or removed. */
  ghost predicate ContentsAt(c: Channels, ops: seq<Op>, n: nat, w: WorkerId)
    requires n <= |ops|
  {
    var now := ChannelsAfter(c, ops[..n]);
    && (w in now.open <==> IsOpen(c.open.Keys, ops, n, w))
    && (w in now.open ==> now.open[w] == Delivered(c.routing, ops, OpenedAt(ops, n, w), n, w))
    && (w in now.closed <==> ClosedAt(ops, n, w).Some?)
    && (w in now.closed ==>
          var hi := ClosedAt(ops, n, w).value + 1;
          now.closed[w] == Delivered(c.routing, ops, OpenedAt(ops, hi, w), hi, w) + [End])
  }

  lemma {:induction false} RoutesToOpen(c: Channels, ops: seq<Op>, n: nat)
    requires Unused(c) && UpdatesOk(c, ops) && n <= |ops|
    ensures var now := ChannelsAfter(c, ops[..n]);
            && now.routing == TableAt(c.routing, ops, n)
            && forall b | 0 <= b < |now.routing| :: now.routing[b] in now.open
  {
    if n == 0 {
      assert ops[..0] == [];
    } else {
      RoutesToOpen(c, ops, n - 1);
      assert ops[..n][..n - 1] == ops[..n - 1];
      assert UpdateOk(ChannelsAfter(c, ops[..n - 1]).open.Keys, ops[n - 1]);
    }
  }

  lemma ContentsNext(c: Channels, ops: seq<Op>, n: nat, w: WorkerId)
    requires Unused(c) && UpdatesOk(c, ops) && n < |ops| && ContentsAt(c, ops, n, w)
    ensures ContentsAt(c, ops, n + 1, w)
  {
    var now, op := ChannelsAfter(c, ops[..n]), ops[n];
    assert ops[..n + 1][..n] == ops[..n];
    assert ChannelsAfter(c, ops[..n + 1]) == Apply(now, op);
    RoutesToOpen(c, ops, n);
    assert UpdateOk(now.open.Keys, op);
    if op.UpdateOp? { UpdatedChannel(now, op.add, op.remove, op.table, w); } else { AddedItem(now, op, w); }
    assert Delivered(c.routing, ops, n, n, w) == [];
  }

  /** An update puts a barrier on every old and new channel and ends the removed
      ones. */
  lemma UpdatedChannel(c: Channels, add: set<WorkerId>, remove: set<WorkerId>, table: seq<WorkerId>, w: WorkerId)
    requires add !! c.open.Keys && remove <= c.open.Keys + add
    ensures var c' := Rerouted(c, add, remove, table);
            var items := (if w in c.open then c.open[w] else []) + [Barrier];
            && (w in c'.open <==> w !in remove && (w in add || w in c.open))
            && (w in c'.open ==> c'.open[w] == items)
            && (w in c'.closed <==> w in remove || w in c.closed)
            && (w in remove ==> c'.closed[w] == items + [End])
            && (w !in remove && w in c.closed ==> c'.closed[w] == c.closed[w])
  {
  }

  /** A record goes to the channel the table names, a watermark to all. */
  lemma AddedItem(c: Channels, op: Op, w: WorkerId)
    requires !op.UpdateOp? && forall b | 0 <= b < |c.routing| :: c.routing[b] in c.open
    ensures var c' := Apply(c, op);
            && (w in c'.open <==> w in c.open) && c'.closed == c.closed
            && (w in c'.open ==> c'.open[w] == c.open[w] + ItemsFor(op, c.routing, w))
  {
  }

  /** Over any sequence of emits, watermarks and routing updates, a downstream gets
      exactly what the operations since it was added are for it, in their order,
      and a removed one up to the update that removed it, and then the end. */
  lemma {:induction false} ChannelContents(c: Channels, ops: seq<Op>, n: nat, w: WorkerId)
    requires Unused(c) && UpdatesOk(c, ops) && n <= |ops|
    ensures ContentsAt(c, ops, n, w)
  {
    if n == 0 {
      assert ops[..0] == [];
    } else {
      ChannelContents(c, ops, n - 1, w);
      ContentsNext(c, ops, n - 1, w);
    }
  }

  /** The records among the items. */
  function RecordsOf(items: seq<Item>): seq<Record> {
    if items == [] then []
    else
      var i := items[|items| - 1];
      RecordsOf(items[..|items| - 1]) + if i.Rec? then [i.r] else []
  }

  /** The records emitted from lo to hi whose bucket the table in force gave to w. */
  function EmittedTo(table: seq<WorkerId>, ops: seq<Op>, lo: nat, hi: nat, w: WorkerId): seq<Record>
    requires lo <= hi <= |ops|
  {
    if lo == hi then []
    else
      var op, now := ops[hi - 1], TableAt(table, ops, hi - 1);
      EmittedTo(table, ops, lo, hi - 1, w)
      + if op.EmitOp? && op.r.bucket < |now| && now[op.r.bucket] == w then [op.r] else []
  }

  lemma {:induction false} RecordsDelivered(table: seq<WorkerId>, ops: seq<Op>, lo: nat, hi: nat, w: WorkerId)
    requires lo <= hi <= |ops|
    ensures RecordsOf(Delivered(table, ops, lo, hi, w)) == EmittedTo(table, ops, lo, hi, w)
  {
    if lo < hi {
      RecordsDelivered(table, ops, lo, hi - 1, w);
      var init, more := Delivered(table, ops, lo, hi - 1, w), ItemsFor(ops[hi - 1], TableAt(table, ops, hi - 1), w);
      assert more != [] ==> (init + more)[..|init|] == init;
      assert more == [] ==> init + more == init;
    }
  }

  /** The records on a channel are exactly those emitted for its downstream. */
  lemma RecordsArrive(c: Channels, ops: seq<Op>, w: WorkerId)
    requires Unused(c) && UpdatesOk(c, ops) && w in ChannelsAfter(c, ops).open
    ensures RecordsOf(ChannelsAfter(c, ops).open[w]) ==
              EmittedTo(c.routing, ops, OpenedAt(ops, |ops|, w), |ops|, w)
  {
    ChannelContents(c, ops, |ops|, w);
    assert ops[..|ops|] == ops;
    RecordsDelivered(c.routing, ops, OpenedAt(ops, |ops|, w), |ops|, w);
  }
}

/**
 The order of records: every channel is a queue, and records of one bucket that an
 upstream task emits under one routing table are processed in the order in which
 they were emitted, also if a reconfiguration sends some of them on to a new owner.
 */
module FlowOrder {
  import opened Types
  import opened RecordFlow
  import opened FlowProperties

  // ---------------------------------------------------------------- tables

  /** The table of the last repartition among the first n steps. */
  function NextAt(table: Table, acts: seq<FlowAction>, n: nat): Table
    requires n <= |acts|
  {
    if n == 0 then table else if acts[n - 1].Start? then acts[n - 1].next else NextAt(table, acts, n - 1)
  }

  /** The table upstream u routes by: the one of the last repartition before its
      last switch. */
  function RouteAt(table: Table, acts: seq<FlowAction>, n: nat, u: Upstream): Table
    requires n <= |acts|
  {
    if n == 0 then table
    else if acts[n - 1] == Switch(u) then NextAt(table, acts, n - 1)
    else RouteAt(table, acts, n - 1, u)
  }

  /** What a step does to the tables. */
  ghost predicate TablesNext(f: Flow, a: FlowAction, f': Flow) {
    && f'.next == (if a.Start? then a.next else f.next) && f'.ups == f.ups
    && f'.route == (if a.Switch? then f.route[a.u := f.next] else f.route)
    && (a.Switch? ==> a.u in f.ups)
  }

  lemma TablesStep(f: Flow, a: FlowAction, f': Flow)
    requires FlowStep(f, a, f')
    ensures TablesNext(f, a, f')
  {
  }

  ghost predicate TableRun(trace: seq<Flow>, acts: seq<FlowAction>) {
    && |trace| == |acts| + 1 && trace[0].next == trace[0].table && trace[0].route.Keys == trace[0].ups
    && (forall u | u in trace[0].route :: trace[0].route[u] == trace[0].table)
    && forall i: nat | i < |acts| :: TablesNext(trace[i], acts[i], trace[i + 1])
  }

  lemma IsTableRun(trace: seq<Flow>, acts: seq<FlowAction>)
    requires IsFlowRun(trace, acts)
    ensures TableRun(trace, acts)
  {
    forall i: nat | i < |acts| ensures TablesNext(trace[i], acts[i], trace[i + 1]) {
      TablesStep(trace[i], acts[i], trace[i + 1]);
    }
  }

  lemma {:induction false} TablesAt(trace: seq<Flow>, acts: seq<FlowAction>, n: nat, u: Upstream)
    requires TableRun(trace, acts) && n < |trace|
    ensures trace[n].next == NextAt(trace[0].table, acts, n)
    ensures u in trace[0].ups <==> u in trace[n].route
    ensures u in trace[n].route ==> trace[n].route[u] == RouteAt(trace[0].table, acts, n, u)
    ensures trace[n].ups == trace[0].ups
  {
    if n > 0 {
      TablesAt(trace, acts, n - 1, u);
      assert TablesNext(trace[n - 1], acts[n - 1], trace[n - 1 + 1]);
    }
  }

  // ---------------------------------------------------------------- queues

  /** What each of the first n steps contributes, one after the other. */
  function Concat<T>(f: nat -> seq<T>, n: nat): seq<T> {
    if n == 0 then [] else Concat(f, n - 1) + f(n - 1)
  }

  /** A step adds `more` at the end of a queue and takes `taken` from its front. */
  ghost predicate QueueStep<T>(on: seq<T>, taken: seq<T>, on': seq<T>, more: seq<T>) {
    taken + on' == on + more
  }

  lemma NothingMoves<T>(on: seq<T>)
    ensures QueueStep(on, [], on, [])
  {
  }

  /** What was taken from a queue, followed by what is still on it, is all that was
      added to it. */
  lemma {:induction false} QueueRun<T>(on: nat -> seq<T>, taken: nat -> seq<T>, more: nat -> seq<T>, n: nat)
    requires on(0) == [] && forall i: nat | i < n :: QueueStep(on(i), taken(i), on(i + 1), more(i))
    ensures Concat(taken, n) + on(n) == Concat(more, n)
  {
    if n > 0 {
      QueueRun(on, taken, more, n - 1);
      var m: nat := n - 1;
      assert QueueStep(on(m), taken(m), on(m + 1), more(m));
      assert (Concat(taken, m) + taken(m)) + on(n) == Concat(taken, m) + (taken(m) + on(n));
      assert Concat(taken, m) + (on(m) + more(m)) == (Concat(taken, m) + on(m)) + more(m);
    }
  }

  // ----------------------------------------------------- channels from upstream

  predicate Gives(table: Table, b: Bucket, w: WorkerId) {
    b < |table| && table[b] == w
  }

  /** What a step of u that routes by the given table sends to w. */
  function Sends(a: FlowAction, table: Table, u: Upstream, w: WorkerId): seq<Record> {
    if a.Emit? && a.u == u && Gives(table, a.r.bucket, w) then [a.r] else []
  }

  /** What a step of w takes from the channel of u, to process it or to send it on. */
  function Takes(a: FlowAction, u: Upstream, w: WorkerId): seq<Record> {
    if (a.Process? || a.Forward?) && a.u == u && a.w == w then [a.r] else []
  }

  function SentAt(table: Table, acts: seq<FlowAction>, u: Upstream, w: WorkerId): nat -> seq<Record> {
    (i: nat) => if i < |acts| then Sends(acts[i], RouteAt(table, acts, i, u), u, w) else []
  }

  function TakenAt(acts: seq<FlowAction>, u: Upstream, w: WorkerId): nat -> seq<Record> {
    (i: nat) => if i < |acts| then Takes(acts[i], u, w) else []
  }

  /** The records u emitted in the first n steps while it sent their bucket to w. */
  function SentTo(table: Table, acts: seq<FlowAction>, n: nat, u: Upstream, w: WorkerId): seq<Record> {
    Concat(SentAt(table, acts, u, w), n)
  }

  function TakenFrom(acts: seq<FlowAction>, n: nat, u: Upstream, w: WorkerId): seq<Record> {
    Concat(TakenAt(acts, u, w), n)
  }

  function RecordsOf(items: seq<Item>): seq<Record> {
    if items == [] then [] else (if items[0].Rec? then [items[0].r] else []) + RecordsOf(items[1..])
  }

  lemma {:induction false} RecordsAppend(items: seq<Item>, x: Item)
    ensures RecordsOf(items + [x]) == RecordsOf(items) + if x.Rec? then [x.r] else []
  {
    if items != [] {
      RecordsAppend(items[1..], x);
      assert (items + [x])[1..] == items[1..] + [x];
    }
  }

  lemma EmitChannel(f: Flow, v: Upstream, r: Record, u: Upstream, w: WorkerId)
    requires CanEmit(f, v, r) && u in f.route
    ensures QueueStep(RecordsOf(Chan(f, u, w)), [], RecordsOf(Chan(DoEmit(f, v, r), u, w)),
                      Sends(Emit(v, r), f.route[u], u, w))
  {
    if v == u && f.route[u][r.bucket] == w { RecordsAppend(Chan(f, u, w), Rec(r)); }
  }

  lemma SwitchChannel(f: Flow, v: Upstream, u: Upstream, w: WorkerId)
    ensures QueueStep(RecordsOf(Chan(f, u, w)), [], RecordsOf(Chan(DoSwitch(f, v), u, w)), [])
  {
    if v == u && w in f.active + f.updated { RecordsAppend(Chan(f, u, w), Barrier); }
  }

  lemma TakeChannel(f: Flow, f': Flow, v: Upstream, x: WorkerId, item: Item, u: Upstream, w: WorkerId)
    requires CanTake(f, v, x, item) && f'.chan == Taken(f, v, x).chan
    ensures QueueStep(RecordsOf(Chan(f, u, w)), if v == u && x == w && item.Rec? then [item.r] else [],
                      RecordsOf(Chan(f', u, w)), [])
  {
  }

  lemma ChannelSame(f: Flow, a: FlowAction, f': Flow)
    requires FlowStep(f, a, f') && !a.Emit? && !a.Switch? && !a.Process? && !a.Forward? && !a.TakeBarrier?
    ensures f'.chan == f.chan
  {
  }

  /** What one step adds to the channel of u and w at its end, and takes from its
      front. */
  lemma ChannelStep(f: Flow, a: FlowAction, f': Flow, u: Upstream, w: WorkerId)
    requires FlowStep(f, a, f') && u in f.route
    ensures QueueStep(RecordsOf(Chan(f, u, w)), Takes(a, u, w), RecordsOf(Chan(f', u, w)), Sends(a, f.route[u], u, w))
  {
    match a
    case Emit(v, r) => EmitChannel(f, v, r, u, w);
    case Switch(v) => SwitchChannel(f, v, u, w);
    case Process(v, x, r) => TakeChannel(f, f', v, x, Rec(r), u, w);
    case Forward(v, x, r) => TakeChannel(f, f', v, x, Rec(r), u, w);
    case TakeBarrier(v, x) => TakeChannel(f, f', v, x, Barrier, u, w);
    case _ =>
      ChannelSame(f, a, f');
      NothingMoves(RecordsOf(Chan(f, u, w)));
  }

  function OnChannel(trace: seq<Flow>, u: Upstream, w: WorkerId): nat -> seq<Record> {
    (i: nat) => if i < |trace| then RecordsOf(Chan(trace[i], u, w)) else []
  }

  lemma ChannelSteps(trace: seq<Flow>, acts: seq<FlowAction>, i: nat, u: Upstream, w: WorkerId)
    requires IsFlowRun(trace, acts) && i < |acts| && u in trace[0].ups
    ensures QueueStep(RecordsOf(Chan(trace[i], u, w)), Takes(acts[i], u, w), RecordsOf(Chan(trace[i + 1], u, w)),
                      Sends(acts[i], RouteAt(trace[0].table, acts, i, u), u, w))
  {
    IsTableRun(trace, acts);
    TablesAt(trace, acts, i, u);
    ChannelStep(trace[i], acts[i], trace[i + 1], u, w);
  }

  lemma ChannelStepAt(trace: seq<Flow>, acts: seq<FlowAction>, i: nat, u: Upstream, w: WorkerId)
    requires |trace| == |acts| + 1 && i < |acts|
    requires QueueStep(RecordsOf(Chan(trace[i], u, w)), Takes(acts[i], u, w), RecordsOf(Chan(trace[i + 1], u, w)),
                       Sends(acts[i], RouteAt(trace[0].table, acts, i, u), u, w))
    ensures QueueStep(OnChannel(trace, u, w)(i), TakenAt(acts, u, w)(i), OnChannel(trace, u, w)(i + 1),
                      SentAt(trace[0].table, acts, u, w)(i))
  {
  }

  /** Every channel is a queue: what w has taken from it, followed by what is still
      on it, is what u has sent to w, in order. */
  lemma ChannelFifo(trace: seq<Flow>, acts: seq<FlowAction>, n: nat, u: Upstream, w: WorkerId)
    requires IsFlowRun(trace, acts) && n < |trace| && u in trace[0].ups
    ensures TakenFrom(acts, n, u, w) + RecordsOf(Chan(trace[n], u, w)) == SentTo(trace[0].table, acts, n, u, w)
  {
    var on, taken, sent := OnChannel(trace, u, w), TakenAt(acts, u, w), SentAt(trace[0].table, acts, u, w);
    forall i: nat | i < n ensures QueueStep(on(i), taken(i), on(i + 1), sent(i)) {
      ChannelSteps(trace, acts, i, u, w);
      ChannelStepAt(trace, acts, i, u, w);
    }
    QueueRun(on, taken, sent, n);
  }

  // --------------------------------------------------------------- peer channels

  /** What a step of src sends on to dst, which the table of the reconfiguration
      names as the new owner. */
  function SendsOn(a: FlowAction, next: Table, src: WorkerId, dst: WorkerId): seq<Record> {
    if a.Forward? && a.w == src && Gives(next, a.r.bucket, dst) then [a.r] else []
  }

  function TakesOver(a: FlowAction, src: WorkerId, dst: WorkerId): seq<Record> {
    if a.ProcessPeer? && a.src == src && a.dst == dst then [a.r] else []
  }

  function SentOnAt(table: Table, acts: seq<FlowAction>, src: WorkerId, dst: WorkerId): nat -> seq<Record> {
    (i: nat) => if i < |acts| then SendsOn(acts[i], NextAt(table, acts, i), src, dst) else []
  }

  function TakenOverAt(acts: seq<FlowAction>, src: WorkerId, dst: WorkerId): nat -> seq<Record> {
    (i: nat) => if i < |acts| then TakesOver(acts[i], src, dst) else []
  }

  /** The records src sent on to dst in the first n steps. */
  function SentOn(table: Table, acts: seq<FlowAction>, n: nat, src: WorkerId, dst: WorkerId): seq<Record> {
    Concat(SentOnAt(table, acts, src, dst), n)
  }

  function TakenOver(acts: seq<FlowAction>, n: nat, src: WorkerId, dst: WorkerId): seq<Record> {
    Concat(TakenOverAt(acts, src, dst), n)
  }

  function ForwardedOf(items: seq<PeerItem>): seq<Record> {
    if items == [] then [] else (if items[0].Forwarded? then [items[0].r] else []) + ForwardedOf(items[1..])
  }

  lemma {:induction false} ForwardedAppend(items: seq<PeerItem>, x: PeerItem)
    ensures ForwardedOf(items + [x]) == ForwardedOf(items) + if x.Forwarded? then [x.r] else []
  {
    if items != [] {
      ForwardedAppend(items[1..], x);
      assert (items + [x])[1..] == items[1..] + [x];
    }
  }

  lemma ForwardPeer(f: Flow, u: Upstream, w: WorkerId, r: Record, src: WorkerId, dst: WorkerId)
    requires CanTake(f, u, w, Rec(r)) && Forwards(f, w, r)
    ensures QueueStep(ForwardedOf(Peer(f, src, dst)), [], ForwardedOf(Peer(DoForward(f, u, w, r), src, dst)),
                      SendsOn(Forward(u, w, r), f.next, src, dst))
  {
    if w == src && f.next[r.bucket] == dst { ForwardedAppend(Peer(f, src, dst), Forwarded(r)); }
  }

  lemma SendMapsPeer(f: Flow, w: WorkerId, src: WorkerId, dst: WorkerId)
    ensures QueueStep(ForwardedOf(Peer(f, src, dst)), [], ForwardedOf(Peer(DoSendMaps(f, w), src, dst)), [])
  {
    if w == src && dst in Receivers(f, w) { ForwardedAppend(Peer(f, src, dst), KeyMaps(Moved(f, w, dst))); }
  }

  lemma TakePeer(f: Flow, f': Flow, x: WorkerId, y: WorkerId, src: WorkerId, dst: WorkerId)
    requires Peer(f, x, y) != [] && f'.peer == f.peer[(x, y) := Peer(f, x, y)[1..]]
    ensures var front := Peer(f, x, y)[0];
            QueueStep(ForwardedOf(Peer(f, src, dst)),
                      if x == src && y == dst && front.Forwarded? then [front.r] else [],
                      ForwardedOf(Peer(f', src, dst)), [])
  {
  }

  lemma PeerSame(f: Flow, a: FlowAction, f': Flow)
    requires FlowStep(f, a, f') && !a.Forward? && !a.SendMaps? && !a.Connect? && !a.ProcessPeer?
    ensures f'.peer == f.peer
  {
  }

  lemma PeerStep(f: Flow, a: FlowAction, f': Flow, src: WorkerId, dst: WorkerId)
    requires FlowStep(f, a, f')
    ensures QueueStep(ForwardedOf(Peer(f, src, dst)), TakesOver(a, src, dst), ForwardedOf(Peer(f', src, dst)),
                      SendsOn(a, f.next, src, dst))
  {
    match a
    case Forward(u, w, r) => ForwardPeer(f, u, w, r, src, dst);
    case SendMaps(w) => SendMapsPeer(f, w, src, dst);
    case Connect(x, y) => TakePeer(f, f', x, y, src, dst);
    case ProcessPeer(x, y, _) => TakePeer(f, f', x, y, src, dst);
    case _ =>
      PeerSame(f, a, f');
      NothingMoves(ForwardedOf(Peer(f, src, dst)));
  }

  function OnPeer(trace: seq<Flow>, src: WorkerId, dst: WorkerId): nat -> seq<Record> {
    (i: nat) => if i < |trace| then ForwardedOf(Peer(trace[i], src, dst)) else []
  }

  lemma PeerSteps(trace: seq<Flow>, acts: seq<FlowAction>, i: nat, src: WorkerId, dst: WorkerId)
    requires IsFlowRun(trace, acts) && i < |acts|
    ensures QueueStep(ForwardedOf(Peer(trace[i], src, dst)), TakesOver(acts[i], src, dst),
                      ForwardedOf(Peer(trace[i + 1], src, dst)),
                      SendsOn(acts[i], NextAt(trace[0].table, acts, i), src, dst))
  {
    IsTableRun(trace, acts);
    TablesAt(trace, acts, i, 0);
    PeerStep(trace[i], acts[i], trace[i + 1], src, dst);
  }

  lemma PeerStepAt(trace: seq<Flow>, acts: seq<FlowAction>, i: nat, src: WorkerId, dst: WorkerId)
    requires |trace| == |acts| + 1 && i < |acts|
    requires QueueStep(ForwardedOf(Peer(trace[i], src, dst)), TakesOver(acts[i], src, dst),
                       ForwardedOf(Peer(trace[i + 1], src, dst)),
                       SendsOn(acts[i], NextAt(trace[0].table, acts, i), src, dst))
    ensures QueueStep(OnPeer(trace, src, dst)(i), TakenOverAt(acts, src, dst)(i), OnPeer(trace, src, dst)(i + 1),
                      SentOnAt(trace[0].table, acts, src, dst)(i))
  {
  }

  /** Every peer channel is a queue, too: dst processes what src sent on, in order. */
  lemma PeerFifo(trace: seq<Flow>, acts: seq<FlowAction>, n: nat, src: WorkerId, dst: WorkerId)
    requires IsFlowRun(trace, acts) && n < |trace|
    ensures TakenOver(acts, n, src, dst) + ForwardedOf(Peer(trace[n], src, dst)) ==
            SentOn(trace[0].table, acts, n, src, dst)
  {
    var on, taken := OnPeer(trace, src, dst), TakenOverAt(acts, src, dst);
    var sent := SentOnAt(trace[0].table, acts, src, dst);
    forall i: nat | i < n ensures QueueStep(on(i), taken(i), on(i + 1), sent(i)) {
      PeerSteps(trace, acts, i, src, dst);
      PeerStepAt(trace, acts, i, src, dst);
    }
    QueueRun(on, taken, sent, n);
  }
}

/**
 The reconfiguration protocol as a step machine: the coordinator's steps, the
 upstream routing switch with in-flight barriers, the sender's transition phase
 and the receiver's key map installation, over FIFO channels.

 One operator is modelled, with any number of upstream tasks, workers, buckets
 and records, through any number of reconfigurations.
 */
module RecordFlow {
  import opened Types
  import opened KeyedStore

  type Upstream = nat
  type Table = seq<WorkerId>

  datatype Record = Record(id: nat, bucket: Bucket)

  datatype Item = Rec(r: Record) | Barrier
  datatype PeerItem = KeyMaps(buckets: set<Bucket>) | Forwarded(r: Record)

  /** A worker in Notified has told the control plane that it entered the
      transition phase, but has not sent its key maps yet. */
  datatype Phase = Normal | Notified | Transition

  /** Steps 1 to 5 of the coordinator; Idle between reconfigurations. */
  datatype Stage = Idle | Preparing | Forwarding | Connecting | Switching | Draining

  datatype Flow = Flow(
    stage: Stage,
    table: Table,                               // partition before the current reconfiguration
    next: Table,                                // partition after it
    active: set<WorkerId>,                      // downstreams of the upstream tasks
    updated: set<WorkerId>,                     // workers after it
    deployed: set<WorkerId>,                    // workers that ever ran the operator
    ups: set<Upstream>,
    route: map<Upstream, Table>,                // routing table of each upstream collector
    chan: map<(Upstream, WorkerId), seq<Item>>,
    peer: map<(WorkerId, WorkerId), seq<PeerItem>>,
    phase: map<WorkerId, Phase>,
    home: map<Bucket, Home>,
    count: map<WorkerId, nat>,                  // in-flight barriers received
    got: map<WorkerId, set<Upstream>>,          // auxiliary: and from whom
    sent: set<WorkerId>)                        // auxiliary: workers that sent their key maps

  datatype FlowAction =
    | Emit(u: Upstream, r: Record)
    | Start(next: Table, updated: set<WorkerId>)
    | DeployTask(w: WorkerId)
    | StartForward
    | Notify(w: WorkerId)
    | WaitConnect
    | SendMaps(w: WorkerId)
    | Connect(src: WorkerId, dst: WorkerId)
    | StartSwitch
    | Switch(u: Upstream)
    | StartDrain
    | Process(u: Upstream, w: WorkerId, r: Record)
    | Forward(u: Upstream, w: WorkerId, r: Record)
    | TakeBarrier(u: Upstream, w: WorkerId)
    | ProcessPeer(src: WorkerId, dst: WorkerId, r: Record)
    | Finish

  // ---------------------------------------------------------------- views

  function Chan(f: Flow, u: Upstream, w: WorkerId): seq<Item> {
    if (u, w) in f.chan then f.chan[(u, w)] else []
  }

  function Peer(f: Flow, src: WorkerId, dst: WorkerId): seq<PeerItem> {
    if (src, dst) in f.peer then f.peer[(src, dst)] else []
  }

  function PhaseOf(f: Flow, w: WorkerId): Phase {
    if w in f.phase then f.phase[w] else Normal
  }

  function Got(f: Flow, w: WorkerId): set<Upstream> {
    if w in f.got then f.got[w] else {}
  }

  function Count(f: Flow, w: WorkerId): nat {
    if w in f.count then f.count[w] else 0
  }

  predicate Aligned(f: Flow, w: WorkerId) {
    Got(f, w) == f.ups
  }

  /** The buckets whose owner changes from src to dst. */
  function Moved(f: Flow, src: WorkerId, dst: WorkerId): set<Bucket> {
    if |f.next| == |f.table| then
      set b | 0 <= b < |f.table| && f.table[b] == src && f.next[b] == dst
    else {}
  }

  function GivenAway(f: Flow, w: WorkerId): set<Bucket> {
    if |f.next| == |f.table| then
      set b | 0 <= b < |f.table| && f.table[b] == w && f.next[b] != w
    else {}
  }

  /** Workers that lose a bucket; they are told to start fast forwarding. */
  predicate IsSender(f: Flow, w: WorkerId) {
    |f.next| == |f.table| && exists b | 0 <= b < |f.table| :: f.table[b] == w && f.next[b] != w
  }

  // -------------------------------------------------------------- actions

  predicate CanEmit(f: Flow, u: Upstream, r: Record) {
    u in f.ups && u in f.route && r.bucket < |f.route[u]|
  }

  function DoEmit(f: Flow, u: Upstream, r: Record): Flow
    requires CanEmit(f, u, r)
  {
    var w := f.route[u][r.bucket];
    f.(chan := f.chan[(u, w) := Chan(f, u, w) + [Rec(r)]])
  }

  /** updateKeyPartition; a repartition without effect is refused. */
  predicate CanStart(f: Flow, next: Table, updated: set<WorkerId>) {
    && f.stage == Idle
    && |next| == |f.table| && next != f.table
    && forall b | 0 <= b < |next| :: next[b] in updated
  }

  function DoStart(f: Flow, next: Table, updated: set<WorkerId>): Flow {
    f.(stage := Preparing, next := next, updated := updated)
  }

  predicate CanDeployTask(f: Flow, w: WorkerId) {
    f.stage == Preparing && w in f.updated && w !in f.deployed
  }

  function DoDeployTask(f: Flow, w: WorkerId): Flow {
    f.(deployed := f.deployed + {w})
  }

  predicate CanNotify(f: Flow, w: WorkerId) {
    f.stage == Forwarding && IsSender(f, w) && PhaseOf(f, w) == Normal
  }

  /** All senders have acknowledged. */
  ghost predicate CanWaitConnect(f: Flow) {
    f.stage == Forwarding && forall w: WorkerId | IsSender(f, w) :: PhaseOf(f, w) != Normal
  }

  predicate CanSendMaps(f: Flow, w: WorkerId) {
    PhaseOf(f, w) == Notified
  }

  function Receivers(f: Flow, w: WorkerId): set<WorkerId> {
    if |f.next| == |f.table| then set b | b in GivenAway(f, w) :: f.next[b] else {}
  }

  function SentPeers(f: Flow, w: WorkerId): map<(WorkerId, WorkerId), seq<PeerItem>> {
    map dst | dst in Receivers(f, w) :: (w, dst) := Peer(f, w, dst) + [KeyMaps(Moved(f, w, dst))]
  }

  /** One key map message per destination, first on each peer channel. */
  function DoSendMaps(f: Flow, w: WorkerId): Flow {
    f.(phase := f.phase[w := Transition],
       sent := f.sent + {w},
       peer := f.peer + SentPeers(f, w),
       home := f.home + OnTheWay(w, f.next, GivenAway(f, w)))
  }

  predicate CanConnect(f: Flow, src: WorkerId, dst: WorkerId) {
    Peer(f, src, dst) != [] && Peer(f, src, dst)[0].KeyMaps?
  }

  /** InitNewUpstream reads the key maps before it adds the peer channel. */
  function DoConnect(f: Flow, src: WorkerId, dst: WorkerId): Flow
    requires CanConnect(f, src, dst)
  {
    var p := Peer(f, src, dst);
    f.(peer := f.peer[(src, dst) := p[1..]], home := f.home + map b | b in p[0].buckets :: At(dst))
  }

  /** Every receiver has the inbound peers the migration plan promises it. */
  ghost predicate CanStartSwitch(f: Flow) {
    && f.stage == Connecting
    && (forall w: WorkerId | IsSender(f, w) :: w in f.sent)
    && (forall src: WorkerId, dst: WorkerId :: !CanConnect(f, src, dst))
  }

  predicate CanSwitch(f: Flow, u: Upstream) {
    f.stage == Switching && u in f.ups && u in f.route && f.route[u] != f.next
  }

  /** Flush, then a barrier on every old and new channel, then the new table. */
  function DoSwitch(f: Flow, u: Upstream): Flow {
    f.(route := f.route[u := f.next],
       chan := f.chan + map w | w in f.active + f.updated :: (u, w) := Chan(f, u, w) + [Barrier])
  }

  predicate CanStartDrain(f: Flow) {
    f.stage == Switching && forall u | u in f.ups :: u in f.route && f.route[u] == f.next
  }

  /** The worker's main loop takes the next item of one upstream channel. */
  predicate CanTake(f: Flow, u: Upstream, w: WorkerId, item: Item) {
    PhaseOf(f, w) != Notified && Chan(f, u, w) != [] && Chan(f, u, w)[0] == item
  }

  function Taken(f: Flow, u: Upstream, w: WorkerId): Flow
    requires Chan(f, u, w) != []
  {
    f.(chan := f.chan[(u, w) := Chan(f, u, w)[1..]])
  }

  /** In transition, a record whose bucket has a new owner is forwarded. */
  predicate Forwards(f: Flow, w: WorkerId, r: Record) {
    PhaseOf(f, w) == Transition && r.bucket < |f.next| && f.next[r.bucket] != w
  }

  function DoForward(f: Flow, u: Upstream, w: WorkerId, r: Record): Flow
    requires Chan(f, u, w) != [] && Forwards(f, w, r)
  {
    var dst := f.next[r.bucket];
    Taken(f, u, w).(peer := f.peer[(w, dst) := Peer(f, w, dst) + [Forwarded(r)]])
  }

  /** The last expected barrier ends the transition phase. */
  function DoTakeBarrier(f: Flow, u: Upstream, w: WorkerId): Flow
    requires Chan(f, u, w) != []
  {
    var g := Taken(f, u, w).(count := f.count[w := Count(f, w) + 1], got := f.got[w := Got(f, w) + {u}]);
    if Count(g, w) == |f.ups| then g.(phase := f.phase[w := Normal]) else g
  }

  predicate CanProcessPeer(f: Flow, src: WorkerId, dst: WorkerId, r: Record) {
    && PhaseOf(f, dst) != Notified
    && Peer(f, src, dst) != [] && Peer(f, src, dst)[0] == Forwarded(r)
    && !Forwards(f, dst, r)
  }

  function DoProcessPeer(f: Flow, src: WorkerId, dst: WorkerId): Flow
    requires Peer(f, src, dst) != []
  {
    f.(peer := f.peer[(src, dst) := Peer(f, src, dst)[1..]])
  }

  /** Every task has aligned its barriers and lost all its inbound peers. */
  ghost predicate CanFinish(f: Flow) {
    && f.stage == Draining
    && (forall w | w in f.active + f.updated :: Count(f, w) == |f.ups| && PhaseOf(f, w) == Normal)
    && (forall src: WorkerId, dst: WorkerId :: Peer(f, src, dst) == [])
  }

  function DoFinish(f: Flow): Flow {
    f.(stage := Idle, table := f.next, active := f.updated, count := map[], got := map[], sent := {})
  }

  ghost predicate FlowStep(f: Flow, a: FlowAction, f': Flow) {
    match a
    case Emit(u, r) => CanEmit(f, u, r) && f' == DoEmit(f, u, r)
    case Start(next, updated) => CanStart(f, next, updated) && f' == DoStart(f, next, updated)
    case DeployTask(w) => CanDeployTask(f, w) && f' == DoDeployTask(f, w)
    case StartForward => f.stage == Preparing && f.updated <= f.deployed && f' == f.(stage := Forwarding)
    case Notify(w) => CanNotify(f, w) && f' == f.(phase := f.phase[w := Notified])
    case WaitConnect => CanWaitConnect(f) && f' == f.(stage := Connecting)
    case SendMaps(w) => CanSendMaps(f, w) && f' == DoSendMaps(f, w)
    case Connect(src, dst) => CanConnect(f, src, dst) && f' == DoConnect(f, src, dst)
    case StartSwitch => CanStartSwitch(f) && f' == f.(stage := Switching)
    case Switch(u) => CanSwitch(f, u) && f' == DoSwitch(f, u)
    case StartDrain => CanStartDrain(f) && f' == f.(stage := Draining)
    case Process(u, w, r) => CanTake(f, u, w, Rec(r)) && !Forwards(f, w, r) && f' == Taken(f, u, w)
    case Forward(u, w, r) => CanTake(f, u, w, Rec(r)) && Forwards(f, w, r) && f' == DoForward(f, u, w, r)
    case TakeBarrier(u, w) => CanTake(f, u, w, Barrier) && f' == DoTakeBarrier(f, u, w)
    case ProcessPeer(src, dst, r) => CanProcessPeer(f, src, dst, r) && f' == DoProcessPeer(f, src, dst)
    case Finish => CanFinish(f) && f' == DoFinish(f)
  }

  // ----------------------------------------------------------- invariant

  predicate RoutedTo(t: Table, w: WorkerId, i: Item) {
    i.Rec? && i.r.bucket < |t| && t[i.r.bucket] == w
  }

  predicate AfterSwitch(f: Flow) {
    f.stage == Switching || f.stage == Draining
  }

  predicate Switched(f: Flow, u: Upstream) {
    AfterSwitch(f) && u in f.route && f.route[u] == f.next
  }

  /** A barrier separates the records routed by the old table from those routed
      by the new one. */
  ghost predicate ChanOk(f: Flow, u: Upstream, w: WorkerId) {
    var c := Chan(f, u, w);
    if !Switched(f, u) then
      && u !in Got(f, w)
      && forall i | 0 <= i < |c| :: RoutedTo(f.table, w, c[i])
    else if u in Got(f, w) || w !in f.active + f.updated then
      forall i | 0 <= i < |c| :: RoutedTo(f.next, w, c[i])
    else
      exists p :: BarrierAt(f.table, f.next, w, c, p)
  }

  ghost predicate BarrierAt(before: Table, next: Table, w: WorkerId, c: seq<Item>, p: int) {
    && 0 <= p < |c| && c[p].Barrier?
    && (forall i | 0 <= i < p :: RoutedTo(before, w, c[i]))
    && (forall i | p < i < |c| :: RoutedTo(next, w, c[i]))
  }

  ghost predicate ForwardedOk(f: Flow, src: WorkerId, dst: WorkerId, i: PeerItem) {
    i.Forwarded? && i.r.bucket in Moved(f, src, dst)
  }

  /** A peer channel carries the key maps first, then forwarded records. */
  ghost predicate PeerOk(f: Flow, src: WorkerId, dst: WorkerId) {
    var p := Peer(f, src, dst);
    if src !in f.sent || src == dst || Moved(f, src, dst) == {} then p == []
    else
      && (forall i | 0 < i < |p| :: ForwardedOk(f, src, dst, p[i]))
      && (p != [] ==> p[0] == KeyMaps(Moved(f, src, dst)) || ForwardedOk(f, src, dst, p[0]))
  }

  /** Where the key map of a bucket is. */
  ghost predicate HomeOk(f: Flow, b: Bucket)
    requires b < |f.table| == |f.next|
  {
    b in f.home && f.home[b] ==
      if f.table[b] !in f.sent || f.next[b] == f.table[b] then At(f.table[b])
      else if CanConnect(f, f.table[b], f.next[b]) then Flying(f.table[b], f.next[b])
      else At(f.next[b])
  }

  ghost predicate WorkerOk(f: Flow, w: WorkerId) {
    && Got(f, w) <= f.ups && Count(f, w) == |Got(f, w)|
    && (w in f.sent ==> IsSender(f, w))
    && (PhaseOf(f, w) == Transition <==> w in f.sent && !Aligned(f, w))
    && (PhaseOf(f, w) == Notified ==>
        (f.stage == Forwarding || f.stage == Connecting) && IsSender(f, w) && w !in f.sent)
    && (f.stage == Idle || f.stage == Preparing ==> PhaseOf(f, w) == Normal && w !in f.sent)
    && (f.stage == Connecting && IsSender(f, w) ==> PhaseOf(f, w) != Normal)
    && (AfterSwitch(f) && IsSender(f, w) ==> w in f.sent)
  }

  ghost predicate GlobalOk(f: Flow) {
    && f.ups != {}
    && |f.next| == |f.table|
    && f.active <= f.deployed
    && (f.stage != Idle && f.stage != Preparing ==> f.updated <= f.deployed)
    && (forall b | 0 <= b < |f.table| :: f.table[b] in f.active)
    && (forall b | 0 <= b < |f.next| && f.stage != Idle :: f.next[b] in f.updated)
    && f.route.Keys == f.ups
    && (forall u | u in f.ups :: f.route[u] == f.table || Switched(f, u))
    && (f.stage == Draining ==> forall u | u in f.ups :: Switched(f, u))
    && (f.stage != Idle ==> f.next != f.table)
  }

  ghost predicate ChansOk(f: Flow) {
    && (forall u: Upstream, w: WorkerId :: ChanOk(f, u, w))
    && (forall u: Upstream, w: WorkerId | u !in f.ups :: Chan(f, u, w) == [])
  }

  ghost predicate PeersOk(f: Flow) {
    && (forall src: WorkerId, dst: WorkerId :: PeerOk(f, src, dst))
    && (AfterSwitch(f) ==> forall src: WorkerId, dst: WorkerId :: !CanConnect(f, src, dst))
  }

  ghost predicate HomesOk(f: Flow)
    requires |f.next| == |f.table|
  {
    forall b: Bucket | b < |f.table| :: HomeOk(f, b)
  }

  ghost predicate WorkersOk(f: Flow) {
    forall w: WorkerId :: WorkerOk(f, w)
  }

  ghost predicate FlowOk(f: Flow) {
    GlobalOk(f) && WorkersOk(f) && ChansOk(f) && PeersOk(f) && HomesOk(f)
  }

  // --------------------------------------------------------------- frames

  ghost predicate SameTables(f: Flow, f': Flow) {
    f'.table == f.table && f'.next == f.next && f'.ups == f.ups && f'.active == f.active && f'.updated == f.updated
  }

  lemma ChansFrame(f: Flow, f': Flow)
    requires ChansOk(f) && SameTables(f, f') && f'.chan == f.chan && f'.got == f.got
    requires forall u: Upstream :: Switched(f', u) == Switched(f, u)
    ensures ChansOk(f')
  {
    forall u: Upstream, w: WorkerId ensures ChanOk(f', u, w) { assert ChanOk(f, u, w); }
    forall u: Upstream, w: WorkerId | u !in f'.ups ensures Chan(f', u, w) == [] { assert Chan(f, u, w) == []; }
  }

  lemma PeersFrame(f: Flow, f': Flow)
    requires |f.next| == |f.table| && PeersOk(f) && HomesOk(f) && SameTables(f, f')
    requires f'.peer == f.peer && f'.home == f.home && f'.sent == f.sent && (AfterSwitch(f') ==> AfterSwitch(f))
    ensures PeersOk(f') && HomesOk(f')
  {
    forall src: WorkerId, dst: WorkerId
      ensures PeerOk(f', src, dst) && CanConnect(f', src, dst) == CanConnect(f, src, dst)
    {
      assert PeerOk(f, src, dst);
    }
    forall b: Bucket | b < |f'.table| ensures HomeOk(f', b) { assert HomeOk(f, b); }
  }

  lemma WorkersFrame(f: Flow, f': Flow)
    requires WorkersOk(f) && SameTables(f, f')
    requires f'.phase == f.phase && f'.sent == f.sent && f'.got == f.got && f'.count == f.count && f'.stage == f.stage
    ensures WorkersOk(f')
  {
    forall w: WorkerId ensures WorkerOk(f', w) { assert WorkerOk(f, w); }
  }

  // --------------------------------------------------------- preservation

  lemma EmitKeeps(f: Flow, u: Upstream, r: Record)
    requires FlowOk(f) && CanEmit(f, u, r)
    ensures FlowOk(DoEmit(f, u, r))
  {
    var f' := DoEmit(f, u, r);
    var w := f.route[u][r.bucket];
    forall u': Upstream, w': WorkerId ensures ChanOk(f', u', w') {
      assert ChanOk(f, u', w');
      if (u', w') == (u, w) {
        var c := Chan(f, u, w);
        assert Chan(f', u, w) == c + [Rec(r)];
        if Switched(f, u) && u !in Got(f, w) && w in f.active + f.updated {
          var p :| BarrierAt(f.table, f.next, w, c, p);
          assert BarrierAt(f.table, f.next, w, c + [Rec(r)], p);
        }
      }
    }
    forall u': Upstream, w': WorkerId | u' !in f.ups ensures Chan(f', u', w') == [] { assert Chan(f, u', w') == []; }
    PeersFrame(f, f');
    WorkersFrame(f, f');
  }

  lemma OldHead(f: Flow, u: Upstream, w: WorkerId)
    requires ChanOk(f, u, w) && !Switched(f, u)
    ensures Chan(f, u, w) != [] ==> exists b | 0 <= b < |f.table| :: f.table[b] == w
  {
    if Chan(f, u, w) != [] {
      assert RoutedTo(f.table, w, Chan(f, u, w)[0]);
    }
  }

  lemma SwitchKeeps(f: Flow, u: Upstream)
    requires FlowOk(f) && CanSwitch(f, u)
    ensures FlowOk(DoSwitch(f, u))
  {
    var f' := DoSwitch(f, u);
    forall u': Upstream, w': WorkerId ensures ChanOk(f', u', w') {
      assert ChanOk(f, u', w');
      if u' == u {
        var c := Chan(f, u, w');
        OldHead(f, u, w');
        if w' in f.active + f.updated {
          assert BarrierAt(f.table, f.next, w', c + [Barrier], |c|);
        }
      } else {
        assert Chan(f', u', w') == Chan(f, u', w');
      }
    }
    forall u': Upstream, w': WorkerId | u' !in f.ups ensures Chan(f', u', w') == [] { assert Chan(f, u', w') == []; }
    PeersFrame(f, f');
    WorkersFrame(f, f');
  }

  /** Taking a record keeps the rest of its channel in order. */
  lemma TakenKeeps(f: Flow, u: Upstream, w: WorkerId, r: Record)
    requires FlowOk(f) && Chan(f, u, w) != [] && Chan(f, u, w)[0] == Rec(r)
    ensures FlowOk(Taken(f, u, w))
    ensures RoutedTo(f.table, w, Rec(r)) ||
            (Switched(f, u) && RoutedTo(f.next, w, Rec(r)) && (u in Got(f, w) || w !in f.active + f.updated))
    ensures u in f.ups
  {
    var f' := Taken(f, u, w);
    assert ChanOk(f, u, w);
    forall u': Upstream, w': WorkerId ensures ChanOk(f', u', w') {
      assert ChanOk(f, u', w');
      if (u', w') == (u, w) {
        var c := Chan(f, u, w);
        assert Chan(f', u, w) == c[1..];
        if Switched(f, u) && u !in Got(f, w) && w in f.active + f.updated {
          var p :| BarrierAt(f.table, f.next, w, c, p);
          assert BarrierAt(f.table, f.next, w, c[1..], p - 1);
        }
      }
    }
    forall u': Upstream, w': WorkerId | u' !in f.ups ensures Chan(f', u', w') == [] { assert Chan(f, u', w') == []; }
    PeersFrame(f, f');
    WorkersFrame(f, f');
  }

  /** A record that a worker in transition forwards was routed to it by the old
      table. */
  lemma ForwardsMoved(f: Flow, u: Upstream, w: WorkerId, r: Record)
    requires FlowOk(f) && CanTake(f, u, w, Rec(r)) && Forwards(f, w, r)
    ensures r.bucket in Moved(f, w, f.next[r.bucket]) && w in f.sent
  {
    TakenKeeps(f, u, w, r);
    assert WorkerOk(f, w);
  }

  lemma ForwardKeeps(f: Flow, u: Upstream, w: WorkerId, r: Record)
    requires FlowOk(f) && CanTake(f, u, w, Rec(r)) && Forwards(f, w, r)
    ensures FlowOk(DoForward(f, u, w, r))
  {
    var f', g := DoForward(f, u, w, r), Taken(f, u, w);
    var dst := f.next[r.bucket];
    TakenKeeps(f, u, w, r);
    ForwardsMoved(f, u, w, r);
    forall src: WorkerId, d: WorkerId ensures PeerOk(f', src, d) && CanConnect(f', src, d) == CanConnect(f, src, d) {
      assert PeerOk(f, src, d);
    }
    forall b: Bucket | b < |f'.table| ensures HomeOk(f', b) { assert HomeOk(f, b); }
    WorkersFrame(g, f');
    ChansFrame(g, f');
  }

  lemma FullSet<T>(a: set<T>, b: set<T>)
    requires a <= b
    ensures |a| == |b| <==> a == b
  {
    assert |b| == |a| + |b - a| by { assert b == a + (b - a); }
  }

  /** A barrier comes from an upstream that switched and was not counted yet. */
  lemma BarrierHead(f: Flow, u: Upstream, w: WorkerId)
    requires FlowOk(f) && Chan(f, u, w) != [] && Chan(f, u, w)[0].Barrier?
    ensures u in f.ups && Switched(f, u) && u !in Got(f, w) && w in f.active + f.updated
    ensures forall i | 0 < i < |Chan(f, u, w)| :: RoutedTo(f.next, w, Chan(f, u, w)[i])
  {
    assert ChanOk(f, u, w);
    var p :| BarrierAt(f.table, f.next, w, Chan(f, u, w), p);
  }

  /** A barrier that is taken separates nothing any more. */
  lemma TakeBarrierChan(f: Flow, u: Upstream, w: WorkerId, u': Upstream, w': WorkerId)
    requires ChanOk(f, u', w') && Chan(f, u, w) != [] && Switched(f, u)
    requires forall i | 0 < i < |Chan(f, u, w)| :: RoutedTo(f.next, w, Chan(f, u, w)[i])
    ensures ChanOk(DoTakeBarrier(f, u, w), u', w')
  {
    var f' := DoTakeBarrier(f, u, w);
    assert forall x: Upstream :: Switched(f', x) == Switched(f, x);
    if (u', w') == (u, w) {
      var c := Chan(f', u, w);
      assert c == Chan(f, u, w)[1..];
      forall i | 0 <= i < |c| ensures RoutedTo(f.next, w, c[i]) { assert c[i] == Chan(f, u, w)[i + 1]; }
    } else {
      assert Chan(f', u', w') == Chan(f, u', w') && (w' != w || u' != u);
      assert u' in Got(f', w') <==> u' in Got(f, w');
    }
  }

  lemma TakeBarrierKeeps(f: Flow, u: Upstream, w: WorkerId)
    requires FlowOk(f) && CanTake(f, u, w, Barrier)
    ensures FlowOk(DoTakeBarrier(f, u, w))
  {
    var f' := DoTakeBarrier(f, u, w);
    BarrierHead(f, u, w);
    forall u': Upstream, w': WorkerId ensures ChanOk(f', u', w') {
      assert ChanOk(f, u', w');
      TakeBarrierChan(f, u, w, u', w');
    }
    forall u': Upstream, w': WorkerId | u' !in f.ups ensures Chan(f', u', w') == [] { assert Chan(f, u', w') == []; }
    TakeBarrierWorkers(f, u, w);
    PeersFrame(f, f');
  }

  lemma TakeBarrierWorkers(f: Flow, u: Upstream, w: WorkerId)
    requires WorkersOk(f) && Chan(f, u, w) != [] && u in f.ups && u !in Got(f, w) && PhaseOf(f, w) != Notified
    requires AfterSwitch(f)
    ensures WorkersOk(DoTakeBarrier(f, u, w))
  {
    forall x: WorkerId ensures WorkerOk(DoTakeBarrier(f, u, w), x) {
      assert WorkerOk(f, x);
      if x == w { TakeBarrierWorker(f, u, w); } else { TakeBarrierOther(f, u, w, x); }
    }
  }

  lemma TakeBarrierOther(f: Flow, u: Upstream, w: WorkerId, x: WorkerId)
    requires WorkerOk(f, x) && Chan(f, u, w) != [] && x != w
    ensures WorkerOk(DoTakeBarrier(f, u, w), x)
  {
    var f' := DoTakeBarrier(f, u, w);
    assert PhaseOf(f', x) == PhaseOf(f, x) && Got(f', x) == Got(f, x) && Count(f', x) == Count(f, x);
    assert IsSender(f', x) == IsSender(f, x);
  }

  lemma TakeBarrierWorker(f: Flow, u: Upstream, w: WorkerId)
    requires WorkerOk(f, w) && Chan(f, u, w) != [] && u in f.ups && u !in Got(f, w) && PhaseOf(f, w) != Notified
    requires AfterSwitch(f)
    ensures WorkerOk(DoTakeBarrier(f, u, w), w)
  {
    var f' := DoTakeBarrier(f, u, w);
    FullSet(Got(f, w) + {u}, f.ups);
    assert Got(f', w) == Got(f, w) + {u} && Count(f', w) == Count(f, w) + 1;
    assert IsSender(f', w) == IsSender(f, w);
  }

  lemma SendMapsKeeps(f: Flow, w: WorkerId)
    requires FlowOk(f) && CanSendMaps(f, w)
    ensures FlowOk(DoSendMaps(f, w))
  {
    var f' := DoSendMaps(f, w);
    assert WorkerOk(f, w);
    ChansFrame(f, f');
    forall src: WorkerId, dst: WorkerId ensures PeerOk(f', src, dst) {
      SentPeer(f, w, src, dst);
    }
    forall b: Bucket | b < |f'.table| ensures HomeOk(f', b) {
      assert HomeOk(f, b);
      SentHome(f, w, b);
    }
    SendMapsWorkers(f, w);
  }

  lemma SendMapsWorkers(f: Flow, w: WorkerId)
    requires GlobalOk(f) && WorkersOk(f) && ChansOk(f) && CanSendMaps(f, w)
    ensures WorkersOk(DoSendMaps(f, w))
  {
    var u :| u in f.ups;
    assert WorkerOk(f, w) && ChanOk(f, u, w);
    forall x: WorkerId ensures WorkerOk(DoSendMaps(f, w), x) { assert WorkerOk(f, x); }
  }

  lemma SentHome(f: Flow, w: WorkerId, b: Bucket)
    requires |f.next| == |f.table| && PeersOk(f) && w !in f.sent && b < |f.table| && HomeOk(f, b)
    ensures HomeOk(DoSendMaps(f, w), b)
  {
    SentPeer(f, w, f.table[b], f.next[b]);
    if f.table[b] == w && f.next[b] != w { assert b in Moved(f, w, f.next[b]); }
  }

  lemma SentPeer(f: Flow, w: WorkerId, src: WorkerId, dst: WorkerId)
    requires |f.next| == |f.table| && PeersOk(f) && w !in f.sent
    ensures PeerOk(DoSendMaps(f, w), src, dst)
    ensures src == w && dst != w && Moved(f, w, dst) != {} ==> CanConnect(DoSendMaps(f, w), src, dst)
    ensures src != w ==> Peer(DoSendMaps(f, w), src, dst) == Peer(f, src, dst)
  {
    assert PeerOk(f, src, dst);
    ReceiversAre(f, w, dst);
  }

  lemma ReceiversAre(f: Flow, w: WorkerId, dst: WorkerId)
    requires |f.next| == |f.table|
    ensures dst in Receivers(f, w) <==> dst != w && Moved(f, w, dst) != {}
  {
    if dst in Receivers(f, w) {
      var b :| b in GivenAway(f, w) && f.next[b] == dst;
      assert b in Moved(f, w, dst);
    }
    if dst != w && Moved(f, w, dst) != {} {
      var b :| b in Moved(f, w, dst);
      assert b in GivenAway(f, w);
    }
  }

  lemma ConnectKeeps(f: Flow, src: WorkerId, dst: WorkerId)
    requires FlowOk(f) && CanConnect(f, src, dst)
    ensures FlowOk(DoConnect(f, src, dst))
    ensures Peer(f, src, dst)[0].buckets == Moved(f, src, dst)
  {
    var f' := DoConnect(f, src, dst);
    assert PeerOk(f, src, dst);
    forall s: WorkerId, d: WorkerId ensures PeerOk(f', s, d) && (CanConnect(f', s, d) ==> CanConnect(f, s, d)) {
      assert PeerOk(f, s, d);
    }
    forall b: Bucket | b < |f'.table| ensures HomeOk(f', b) { assert HomeOk(f, b); }
    WorkersFrame(f, f');
    ChansFrame(f, f');
  }

  lemma ProcessPeerKeeps(f: Flow, src: WorkerId, dst: WorkerId, r: Record)
    requires FlowOk(f) && CanProcessPeer(f, src, dst, r)
    ensures FlowOk(DoProcessPeer(f, src, dst))
  {
    var f' := DoProcessPeer(f, src, dst);
    forall s: WorkerId, d: WorkerId ensures PeerOk(f', s, d) && CanConnect(f', s, d) == CanConnect(f, s, d) {
      assert PeerOk(f, s, d);
    }
    forall b: Bucket | b < |f'.table| ensures HomeOk(f', b) { assert HomeOk(f, b); }
    WorkersFrame(f, f');
    ChansFrame(f, f');
  }

  lemma StartKeeps(f: Flow, next: Table, updated: set<WorkerId>)
    requires FlowOk(f) && CanStart(f, next, updated)
    ensures FlowOk(DoStart(f, next, updated))
  {
    var f' := DoStart(f, next, updated);
    forall u: Upstream, w: WorkerId ensures ChanOk(f', u, w) { assert ChanOk(f, u, w); }
    forall u: Upstream, w: WorkerId | u !in f'.ups ensures Chan(f', u, w) == [] { assert Chan(f, u, w) == []; }
    forall w: WorkerId ensures WorkerOk(f', w) { assert WorkerOk(f, w); }
    forall src: WorkerId, dst: WorkerId ensures PeerOk(f', src, dst) { assert PeerOk(f, src, dst) && WorkerOk(f, src); }
    forall b: Bucket | b < |f'.table| ensures HomeOk(f', b) { assert HomeOk(f, b) && WorkerOk(f, f.table[b]); }
  }

  /** Steps of the coordinator that only advance the stage. */
  lemma StageKeeps(f: Flow, stage: Stage)
    requires FlowOk(f)
    requires
      || (f.stage == Preparing && f.updated <= f.deployed && stage == Forwarding)
      || (CanWaitConnect(f) && stage == Connecting)
      || (CanStartDrain(f) && stage == Draining)
    ensures FlowOk(f.(stage := stage))
  {
    var f' := f.(stage := stage);
    forall w: WorkerId ensures WorkerOk(f', w) { assert WorkerOk(f, w); }
    ChansFrame(f, f');
    PeersFrame(f, f');
  }

  lemma StartSwitchKeeps(f: Flow)
    requires FlowOk(f) && CanStartSwitch(f)
    ensures FlowOk(f.(stage := Switching))
  {
    var f' := f.(stage := Switching);
    forall w: WorkerId ensures WorkerOk(f', w) { assert WorkerOk(f, w); }
    ChansFrame(f, f');
    forall src: WorkerId, dst: WorkerId ensures PeerOk(f', src, dst) && !CanConnect(f', src, dst) {
      assert PeerOk(f, src, dst) && !CanConnect(f, src, dst);
    }
    forall b: Bucket | b < |f'.table| ensures HomeOk(f', b) { assert HomeOk(f, b); }
  }

  /** When every task is done, no trace of the old table is left. */
  lemma FinishKeeps(f: Flow)
    requires FlowOk(f) && CanFinish(f)
    ensures FlowOk(DoFinish(f))
  {
    var f' := DoFinish(f);
    forall w: WorkerId ensures WorkerOk(f', w) {
      assert WorkerOk(f, w);
    }
    forall u: Upstream, w: WorkerId ensures ChanOk(f', u, w) {
      assert ChanOk(f, u, w);
      FinishedChan(f, u, w);
    }
    forall u: Upstream, w: WorkerId | u !in f'.ups ensures Chan(f', u, w) == [] { assert Chan(f, u, w) == []; }
    forall src: WorkerId, dst: WorkerId ensures PeerOk(f', src, dst) { assert Peer(f, src, dst) == []; }
    forall b: Bucket | b < |f'.table| ensures HomeOk(f', b) {
      FinishedHome(f, b);
    }
  }

  lemma FinishedChan(f: Flow, u: Upstream, w: WorkerId)
    requires FlowOk(f) && CanFinish(f)
    ensures forall i | 0 <= i < |Chan(f, u, w)| :: RoutedTo(f.next, w, Chan(f, u, w)[i])
  {
    assert ChanOk(f, u, w) && WorkerOk(f, w);
    FullSet(Got(f, w), f.ups);
    if u !in f.ups { assert Chan(f, u, w) == []; }
  }

  lemma FinishedHome(f: Flow, b: Bucket)
    requires FlowOk(f) && AfterSwitch(f) && b < |f.table|
    ensures b in f.home && f.home[b] == At(f.next[b])
  {
    assert HomeOk(f, b) && WorkerOk(f, f.table[b]);
    assert !CanConnect(f, f.table[b], f.next[b]);
    if f.next[b] != f.table[b] { assert IsSender(f, f.table[b]); }
  }

  lemma NotifyKeeps(f: Flow, w: WorkerId)
    requires FlowOk(f) && CanNotify(f, w)
    ensures FlowOk(f.(phase := f.phase[w := Notified]))
  {
    var f' := f.(phase := f.phase[w := Notified]);
    var u :| u in f.ups;
    assert ChanOk(f, u, w);
    forall x: WorkerId ensures WorkerOk(f', x) { assert WorkerOk(f, x); }
    ChansFrame(f, f');
    PeersFrame(f, f');
  }

  lemma DeployTaskKeeps(f: Flow, w: WorkerId)
    requires FlowOk(f) && CanDeployTask(f, w)
    ensures FlowOk(DoDeployTask(f, w))
  {
    var f' := DoDeployTask(f, w);
    WorkersFrame(f, f');
    ChansFrame(f, f');
    PeersFrame(f, f');
  }

  lemma FlowStepKeeps(f: Flow, a: FlowAction, f': Flow)
    requires FlowOk(f) && FlowStep(f, a, f')
    ensures FlowOk(f')
  {
    match a
    case Emit(u, r) => EmitKeeps(f, u, r);
    case Start(next, updated) => StartKeeps(f, next, updated);
    case DeployTask(w) => DeployTaskKeeps(f, w);
    case StartForward => StageKeeps(f, Forwarding);
    case Notify(w) => NotifyKeeps(f, w);
    case WaitConnect => StageKeeps(f, Connecting);
    case SendMaps(w) => SendMapsKeeps(f, w);
    case Connect(src, dst) => ConnectKeeps(f, src, dst);
    case StartSwitch => StartSwitchKeeps(f);
    case Switch(u) => SwitchKeeps(f, u);
    case StartDrain => StageKeeps(f, Draining);
    case Process(u, w, r) => TakenKeeps(f, u, w, r);
    case Forward(u, w, r) => ForwardKeeps(f, u, w, r);
    case TakeBarrier(u, w) => TakeBarrierKeeps(f, u, w);
    case ProcessPeer(src, dst, r) => ProcessPeerKeeps(f, src, dst, r);
    case Finish => FinishKeeps(f);
  }
}

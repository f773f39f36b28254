/**
 Records of one bucket that an upstream task emits under one routing table are
 processed in the order in which they were emitted, whatever reconfigurations come
 in between: a sender that has begun to send records of a bucket on sends all of
 them on that come before the barrier.
 */
module KeyOrder {
  import opened Types
  import opened RecordFlow
  import opened FlowProperties
  import opened FlowOrder

  /** Two records of bucket b that u sends to w. */
  datatype Pair = Pair(u: Upstream, w: WorkerId, b: Bucket, first: Record, second: Record)

  predicate In(p: Pair, r: Record) {
    r.id == p.first.id || r.id == p.second.id
  }

  /** The records of the pair, in order. */
  function Only(rs: seq<Record>, p: Pair): seq<Record> {
    if rs == [] then [] else (if In(p, rs[0]) then [rs[0]] else []) + Only(rs[1..], p)
  }

  lemma {:induction false} OnlyConcat(a: seq<Record>, b: seq<Record>, p: Pair)
    ensures Only(a + b, p) == Only(a, p) + Only(b, p)
  {
    if a == [] {
      assert a + b == b;
    } else {
      var head := if In(p, a[0]) then [a[0]] else [];
      OnlyConcat(a[1..], b, p);
      assert (a + b)[1..] == a[1..] + b;
      assert head + (Only(a[1..], p) + Only(b, p)) == (head + Only(a[1..], p)) + Only(b, p);
    }
  }

  lemma OnlyStep(on: seq<Record>, taken: seq<Record>, on': seq<Record>, more: seq<Record>, p: Pair)
    requires QueueStep(on, taken, on', more)
    ensures QueueStep(Only(on, p), Only(taken, p), Only(on', p), Only(more, p))
  {
    OnlyConcat(taken, on', p);
    OnlyConcat(on, more, p);
  }

  // ------------------------------------------------------------- where they are

  function OnChan(f: Flow, v: Upstream, z: WorkerId, p: Pair): seq<Record> {
    Only(RecordsOf(Chan(f, v, z)), p)
  }

  function OnPeers(f: Flow, src: WorkerId, dst: WorkerId, p: Pair): seq<Record> {
    Only(ForwardedOf(Peer(f, src, dst)), p)
  }

  /** Those that w has sent on to the new owner of the bucket. */
  function SentOnward(f: Flow, p: Pair): seq<Record> {
    if p.b < |f.next| then OnPeers(f, p.w, f.next[p.b], p) else []
  }

  /** They are on no other channel. */
  ghost predicate NowhereElse(f: Flow, p: Pair) {
    && (forall v: Upstream, z: WorkerId | v != p.u || z != p.w :: OnChan(f, v, z, p) == [])
    && (forall src: WorkerId, dst: WorkerId | src != p.w || !Gives(f.next, p.b, dst) :: OnPeers(f, src, dst, p) == [])
  }

  predicate OfBucket(rs: seq<Record>, b: Bucket) {
    forall r | r in rs :: r.bucket == b
  }

  /** First come the processed ones, then those sent on, then those on the channel:
      together they are the emitted ones in their order. */
  ghost predicate Lined(f: Flow, p: Pair, done: seq<Record>, emitted: seq<Record>) {
    && NowhereElse(f, p) && OfBucket(emitted, p.b)
    && InLine(done, SentOnward(f, p), OnChan(f, p.u, p.w, p), emitted)
  }

  ghost predicate InLine(done: seq<Record>, way: seq<Record>, chan: seq<Record>, emitted: seq<Record>) {
    done + way + chan == emitted
  }

  function Processed(a: FlowAction): seq<Record> {
    if a.Process? || a.ProcessPeer? then [a.r] else []
  }

  function Emits(a: FlowAction): seq<Record> {
    if a.Emit? then [a.r] else []
  }

  /** The records of the pair are emitted by u while it sends the bucket to w. */
  ghost predicate EmitsTo(f: Flow, a: FlowAction, p: Pair) {
    a.Emit? && In(p, a.r) ==> a.u == p.u && a.r.bucket == p.b && p.u in f.route && Gives(f.route[p.u], p.b, p.w)
  }

  ghost predicate StepOf(f: Flow, a: FlowAction, f': Flow, p: Pair) {
    FlowStep(f, a, f') && FlowOk(f) && FlowOk(f') && p.u in f.route && (a.Emit? ==> a.u in f.route) && EmitsTo(f, a, p)
  }

  // ---------------------------------------------------------------- one step

  lemma ChanStep(f: Flow, a: FlowAction, f': Flow, v: Upstream, z: WorkerId, p: Pair)
    requires FlowStep(f, a, f') && v in f.route
    ensures QueueStep(OnChan(f, v, z, p), Only(Takes(a, v, z), p), OnChan(f', v, z, p),
                      Only(Sends(a, f.route[v], v, z), p))
  {
    ChannelStep(f, a, f', v, z);
    OnlyStep(RecordsOf(Chan(f, v, z)), Takes(a, v, z), RecordsOf(Chan(f', v, z)), Sends(a, f.route[v], v, z), p);
  }

  lemma PeersStep(f: Flow, a: FlowAction, f': Flow, src: WorkerId, dst: WorkerId, p: Pair)
    requires FlowStep(f, a, f')
    ensures QueueStep(OnPeers(f, src, dst, p), Only(TakesOver(a, src, dst), p), OnPeers(f', src, dst, p),
                      Only(SendsOn(a, f.next, src, dst), p))
  {
    PeerStep(f, a, f', src, dst);
    OnlyStep(ForwardedOf(Peer(f, src, dst)), TakesOver(a, src, dst), ForwardedOf(Peer(f', src, dst)),
             SendsOn(a, f.next, src, dst), p);
  }

  lemma OneOnly(r: Record, p: Pair)
    ensures Only([r], p) == (if In(p, r) then [r] else []) && Only([], p) == []
  {
    assert [r][1..] == [];
  }

  /** What is taken from a queue that gets nothing was on it. */
  lemma WasFirst(on: seq<Record>, r: Record, on': seq<Record>)
    requires QueueStep(on, [r], on', [])
    ensures on != [] && on[0] == r
  {
    assert on + [] == on;
    assert ([r] + on')[0] == r;
  }

  lemma TakesRouted(f: Flow, a: FlowAction, f': Flow)
    requires FlowOk(f) && FlowStep(f, a, f') && (a.Process? || a.Forward?)
    ensures a.u in f.route && Chan(f, a.u, a.w) != [] && Chan(f, a.u, a.w)[0] == Rec(a.r)
    ensures a.Forward? <==> Forwards(f, a.w, a.r)
  {
    var v, z := a.u, a.w;
    assert v !in f.ups ==> Chan(f, v, z) == [];
  }

  /** A record of the pair that is taken comes from the channel of the pair. */
  lemma TakesFromChannel(f: Flow, a: FlowAction, f': Flow, p: Pair, done: seq<Record>, emitted: seq<Record>)
    requires FlowOk(f) && FlowStep(f, a, f') && Lined(f, p, done, emitted)
    requires (a.Process? || a.Forward?) && In(p, a.r)
    ensures a.u == p.u && a.w == p.w && a.r.bucket == p.b
  {
    var v, z, r := a.u, a.w, a.r;
    TakesRouted(f, a, f');
    ChanStep(f, a, f', v, z, p);
    OneOnly(r, p);
    WasFirst(OnChan(f, v, z, p), r, OnChan(f', v, z, p));
    assert v != p.u || z != p.w ==> OnChan(f, v, z, p) == [];
    assert r in OnChan(f, p.u, p.w, p);
    assert r in done + SentOnward(f, p) + OnChan(f, p.u, p.w, p);
  }

  lemma TakesFromPeer(f: Flow, a: FlowAction, f': Flow, p: Pair)
    requires FlowStep(f, a, f') && NowhereElse(f, p) && a.ProcessPeer? && In(p, a.r)
    ensures a.src == p.w && Gives(f.next, p.b, a.dst)
  {
    var src, dst, r := a.src, a.dst, a.r;
    PeersStep(f, a, f', src, dst, p);
    OneOnly(r, p);
    WasFirst(OnPeers(f, src, dst, p), r, OnPeers(f', src, dst, p));
    assert src != p.w || !Gives(f.next, p.b, dst) ==> OnPeers(f, src, dst, p) == [];
  }

  /** A worker that still processes records of the bucket has sent none on. */
  lemma NothingOvertaken(f: Flow, u: Upstream, w: WorkerId, r: Record, dst: WorkerId)
    requires FlowOk(f) && u in f.ups && Chan(f, u, w) != [] && Chan(f, u, w)[0] == Rec(r) && !Forwards(f, w, r)
    requires Gives(f.next, r.bucket, dst)
    ensures Peer(f, w, dst) == []
  {
    assert PeerOk(f, w, dst) && WorkerOk(f, w) && ChanOk(f, u, w);
    assert RoutedTo(f.next, w, Rec(r)) <==> w == dst;
  }

  /** Between reconfigurations nothing is on a peer channel. */
  lemma NoPeersYet(f: Flow, src: WorkerId, dst: WorkerId)
    requires FlowOk(f) && f.stage == Idle
    ensures Peer(f, src, dst) == []
  {
    assert PeerOk(f, src, dst) && WorkerOk(f, src);
  }

  lemma QuietChan(f: Flow, a: FlowAction, f': Flow, p: Pair, v: Upstream, z: WorkerId)
    requires StepOf(f, a, f', p) && OnChan(f, v, z, p) == [] && (v != p.u || z != p.w)
    ensures OnChan(f', v, z, p) == []
  {
    TablesStep(f, a, f');
    if v in f.route {
      ChanStep(f, a, f', v, z, p);
      if a.Emit? { OneOnly(a.r, p); }
      assert Only(Sends(a, f.route[v], v, z), p) == [];
    } else {
      assert Chan(f', v, z) == [];
    }
  }

  lemma QuietPeer(f: Flow, a: FlowAction, f': Flow, p: Pair, done: seq<Record>, emitted: seq<Record>, src: WorkerId,
                  dst: WorkerId)
    requires StepOf(f, a, f', p) && Lined(f, p, done, emitted) && (src != p.w || !Gives(f'.next, p.b, dst))
    ensures OnPeers(f', src, dst, p) == []
  {
    TablesStep(f, a, f');
    PeersStep(f, a, f', src, dst, p);
    if a.Start? {
      NoPeersYet(f, src, dst);
    } else {
      assert OnPeers(f, src, dst, p) == [];
      if a.Forward? {
        OneOnly(a.r, p);
        if In(p, a.r) { TakesFromChannel(f, a, f', p, done, emitted); }
      }
    }
  }

  lemma StillNowhereElse(f: Flow, a: FlowAction, f': Flow, p: Pair, done: seq<Record>, emitted: seq<Record>)
    requires StepOf(f, a, f', p) && Lined(f, p, done, emitted)
    ensures NowhereElse(f', p)
  {
    forall v: Upstream, z: WorkerId | v != p.u || z != p.w ensures OnChan(f', v, z, p) == [] {
      assert OnChan(f, v, z, p) == [];
      QuietChan(f, a, f', p, v, z);
    }
    forall src: WorkerId, dst: WorkerId | src != p.w || !Gives(f'.next, p.b, dst)
      ensures OnPeers(f', src, dst, p) == []
    {
      QuietPeer(f, a, f', p, done, emitted, src, dst);
    }
  }

  // ------------------------------------------------------------ the line is kept

  lemma LineGrows(done: seq<Record>, way: seq<Record>, chan: seq<Record>, emitted: seq<Record>, more: seq<Record>,
                  chan': seq<Record>)
    requires InLine(done, way, chan, emitted) && QueueStep(chan, [], chan', more)
    ensures InLine(done + [], way, chan', emitted + more)
  {
    assert chan' == chan + more;
    assert done + way + (chan + more) == (done + way + chan) + more;
  }

  /** Records are processed straight from the channel. */
  lemma LineProcesses(done: seq<Record>, way: seq<Record>, chan: seq<Record>, emitted: seq<Record>, taken: seq<Record>,
                      chan': seq<Record>)
    requires InLine(done, way, chan, emitted) && QueueStep(chan, taken, chan', []) && (taken == [] || way == [])
    ensures InLine(done + taken, way, chan', emitted + [])
  {
    assert chan == taken + chan';
    assert taken == [] ==> chan' == chan && done + taken == done;
    assert way == [] ==> done + way + (taken + chan') == (done + taken) + way + chan';
  }

  /** Records are sent on. */
  lemma LineSendsOn(done: seq<Record>, way: seq<Record>, chan: seq<Record>, emitted: seq<Record>, taken: seq<Record>,
                    way': seq<Record>, chan': seq<Record>)
    requires InLine(done, way, chan, emitted) && QueueStep(chan, taken, chan', []) && QueueStep(way, [], way', taken)
    ensures InLine(done + [], way', chan', emitted + [])
  {
    assert chan == taken + chan' && way' == way + taken;
    assert done + way + (taken + chan') == done + (way + taken) + chan';
  }

  /** Records that were sent on are processed. */
  lemma LineTakesOver(done: seq<Record>, way: seq<Record>, chan: seq<Record>, emitted: seq<Record>, taken: seq<Record>,
                      way': seq<Record>)
    requires InLine(done, way, chan, emitted) && QueueStep(way, taken, way', [])
    ensures InLine(done + taken, way', chan, emitted + [])
  {
    assert way == taken + way';
    assert done + (taken + way') + chan == (done + taken) + way' + chan;
  }

  lemma SameQueue(on: seq<Record>, on': seq<Record>)
    requires QueueStep(on, [], on', [])
    ensures on' == on
  {
    assert [] + on' == on' && on + [] == on;
  }

  /** What a step does to the parts of the line. */
  lemma EmitFacts(f: Flow, a: FlowAction, f': Flow, p: Pair)
    requires StepOf(f, a, f', p) && a.Emit?
    ensures f'.peer == f.peer && f'.next == f.next
    ensures QueueStep(OnChan(f, p.u, p.w, p), [], OnChan(f', p.u, p.w, p), Only([a.r], p))
  {
    ChanStep(f, a, f', p.u, p.w, p);
    EmitSends(f, a, p);
  }

  lemma EmitSends(f: Flow, a: FlowAction, p: Pair)
    requires a.Emit? && EmitsTo(f, a, p) && p.u in f.route
    ensures Only(Sends(a, f.route[p.u], p.u, p.w), p) == Only([a.r], p) && Only(Takes(a, p.u, p.w), p) == []
  {
    OneOnly(a.r, p);
  }

  lemma TakeFacts(f: Flow, a: FlowAction, f': Flow, p: Pair, done: seq<Record>, emitted: seq<Record>)
    requires StepOf(f, a, f', p) && Lined(f, p, done, emitted) && (a.Process? || a.Forward?)
    ensures QueueStep(OnChan(f, p.u, p.w, p), Only([a.r], p), OnChan(f', p.u, p.w, p), [])
    ensures In(p, a.r) ==> a.w == p.w && a.r.bucket == p.b
  {
    var r := a.r;
    ChanStep(f, a, f', p.u, p.w, p);
    OneOnly(r, p);
    if In(p, r) { TakesFromChannel(f, a, f', p, done, emitted); }
  }

  lemma ProcessFacts(f: Flow, a: FlowAction, f': Flow, p: Pair, done: seq<Record>, emitted: seq<Record>)
    requires StepOf(f, a, f', p) && Lined(f, p, done, emitted) && a.Process?
    ensures f'.peer == f.peer && f'.next == f.next
    ensures In(p, a.r) ==> SentOnward(f, p) == []
  {
    var r := a.r;
    if In(p, r) {
      TakesFromChannel(f, a, f', p, done, emitted);
      TakesRouted(f, a, f');
      if p.b < |f.next| { NothingOvertaken(f, p.u, p.w, r, f.next[p.b]); }
    }
  }

  lemma ForwardFacts(f: Flow, a: FlowAction, f': Flow, p: Pair)
    requires StepOf(f, a, f', p) && a.Forward? && (In(p, a.r) ==> a.w == p.w && a.r.bucket == p.b)
    ensures QueueStep(SentOnward(f, p), [], SentOnward(f', p), Only([a.r], p))
  {
    OneOnly(a.r, p);
    TakesRouted(f, a, f');
    ForwardPeers(f, a, f', p);
  }

  lemma ForwardPeers(f: Flow, a: FlowAction, f': Flow, p: Pair)
    requires StepOf(f, a, f', p) && a.Forward?
    ensures QueueStep(SentOnward(f, p), [], SentOnward(f', p),
                      if p.b < |f.next| then Only(SendsOn(a, f.next, p.w, f.next[p.b]), p) else [])
  {
    TablesStep(f, a, f');
    OneOnly(a.r, p);
    if p.b < |f.next| { PeersStep(f, a, f', p.w, f.next[p.b], p); }
  }

  lemma TakeOverFacts(f: Flow, a: FlowAction, f': Flow, p: Pair)
    requires StepOf(f, a, f', p) && NowhereElse(f, p) && a.ProcessPeer?
    ensures OnChan(f', p.u, p.w, p) == OnChan(f, p.u, p.w, p)
    ensures QueueStep(SentOnward(f, p), Only([a.r], p), SentOnward(f', p), [])
  {
    OneOnly(a.r, p);
    TakeOverPeers(f, a, f', p);
    if In(p, a.r) { TakesFromPeer(f, a, f', p); }
  }

  lemma TakeOverPeers(f: Flow, a: FlowAction, f': Flow, p: Pair)
    requires StepOf(f, a, f', p) && a.ProcessPeer?
    ensures f'.chan == f.chan
    ensures QueueStep(SentOnward(f, p), if p.b < |f.next| then Only(TakesOver(a, p.w, f.next[p.b]), p) else [],
                      SentOnward(f', p), [])
  {
    TablesStep(f, a, f');
    if p.b < |f.next| { PeersStep(f, a, f', p.w, f.next[p.b], p); }
  }

  lemma OtherFacts(f: Flow, a: FlowAction, f': Flow, p: Pair)
    requires StepOf(f, a, f', p) && !a.Emit? && !a.Process? && !a.Forward? && !a.ProcessPeer?
    ensures OnChan(f', p.u, p.w, p) == OnChan(f, p.u, p.w, p) && SentOnward(f', p) == SentOnward(f, p)
  {
    ChanStep(f, a, f', p.u, p.w, p);
    SameQueue(OnChan(f, p.u, p.w, p), OnChan(f', p.u, p.w, p));
    TablesStep(f, a, f');
    if p.b < |f'.next| {
      PeersStep(f, a, f', p.w, f'.next[p.b], p);
      SameQueue(OnPeers(f, p.w, f'.next[p.b], p), OnPeers(f', p.w, f'.next[p.b], p));
      if a.Start? {
        NoPeersYet(f, p.w, f'.next[p.b]);
        if p.b < |f.next| { NoPeersYet(f, p.w, f.next[p.b]); }
      }
    }
  }

  /** The line after a step. */
  ghost predicate NextLine(f': Flow, a: FlowAction, p: Pair, done: seq<Record>, emitted: seq<Record>) {
    InLine(done + Only(Processed(a), p), SentOnward(f', p), OnChan(f', p.u, p.w, p), emitted + Only(Emits(a), p))
  }

  /** The line before a step. */
  ghost predicate ThisLine(f: Flow, p: Pair, done: seq<Record>, emitted: seq<Record>) {
    InLine(done, SentOnward(f, p), OnChan(f, p.u, p.w, p), emitted)
  }

  lemma EmitLine(f: Flow, a: FlowAction, f': Flow, p: Pair, done: seq<Record>, emitted: seq<Record>)
    requires ThisLine(f, p, done, emitted) && a.Emit? && f'.peer == f.peer && f'.next == f.next
    requires QueueStep(OnChan(f, p.u, p.w, p), [], OnChan(f', p.u, p.w, p), Only([a.r], p))
    ensures NextLine(f', a, p, done, emitted)
  {
    LineGrows(done, SentOnward(f, p), OnChan(f, p.u, p.w, p), emitted, Only([a.r], p), OnChan(f', p.u, p.w, p));
  }

  lemma ProcessLine(f: Flow, a: FlowAction, f': Flow, p: Pair, done: seq<Record>, emitted: seq<Record>)
    requires ThisLine(f, p, done, emitted) && a.Process? && f'.peer == f.peer && f'.next == f.next
    requires QueueStep(OnChan(f, p.u, p.w, p), Only([a.r], p), OnChan(f', p.u, p.w, p), [])
    requires In(p, a.r) ==> SentOnward(f, p) == []
    ensures NextLine(f', a, p, done, emitted)
  {
    OneOnly(a.r, p);
    LineProcesses(done, SentOnward(f, p), OnChan(f, p.u, p.w, p), emitted, Only([a.r], p), OnChan(f', p.u, p.w, p));
  }

  lemma ForwardLine(f: Flow, a: FlowAction, f': Flow, p: Pair, done: seq<Record>, emitted: seq<Record>)
    requires ThisLine(f, p, done, emitted) && a.Forward?
    requires QueueStep(OnChan(f, p.u, p.w, p), Only([a.r], p), OnChan(f', p.u, p.w, p), [])
    requires QueueStep(SentOnward(f, p), [], SentOnward(f', p), Only([a.r], p))
    ensures NextLine(f', a, p, done, emitted)
  {
    LineSendsOn(done, SentOnward(f, p), OnChan(f, p.u, p.w, p), emitted, Only([a.r], p), SentOnward(f', p),
                OnChan(f', p.u, p.w, p));
  }

  lemma TakeOverLine(f: Flow, a: FlowAction, f': Flow, p: Pair, done: seq<Record>, emitted: seq<Record>)
    requires ThisLine(f, p, done, emitted) && a.ProcessPeer? && OnChan(f', p.u, p.w, p) == OnChan(f, p.u, p.w, p)
    requires QueueStep(SentOnward(f, p), Only([a.r], p), SentOnward(f', p), [])
    ensures NextLine(f', a, p, done, emitted)
  {
    LineTakesOver(done, SentOnward(f, p), OnChan(f, p.u, p.w, p), emitted, Only([a.r], p), SentOnward(f', p));
  }

  lemma OtherLine(f: Flow, a: FlowAction, f': Flow, p: Pair, done: seq<Record>, emitted: seq<Record>)
    requires ThisLine(f, p, done, emitted) && !a.Emit? && !a.Process? && !a.ProcessPeer?
    requires OnChan(f', p.u, p.w, p) == OnChan(f, p.u, p.w, p) && SentOnward(f', p) == SentOnward(f, p)
    ensures NextLine(f', a, p, done, emitted)
  {
    assert done + [] == done && emitted + [] == emitted;
  }

  lemma LineStep(f: Flow, a: FlowAction, f': Flow, p: Pair, done: seq<Record>, emitted: seq<Record>)
    requires StepOf(f, a, f', p) && Lined(f, p, done, emitted)
    ensures NextLine(f', a, p, done, emitted)
  {
    match a
    case Emit(_, _) =>
      EmitFacts(f, a, f', p);
      EmitLine(f, a, f', p, done, emitted);
    case Process(_, _, _) =>
      TakeFacts(f, a, f', p, done, emitted);
      ProcessFacts(f, a, f', p, done, emitted);
      ProcessLine(f, a, f', p, done, emitted);
    case Forward(_, _, _) =>
      TakeFacts(f, a, f', p, done, emitted);
      ForwardFacts(f, a, f', p);
      ForwardLine(f, a, f', p, done, emitted);
    case ProcessPeer(_, _, _) =>
      TakeOverFacts(f, a, f', p);
      TakeOverLine(f, a, f', p, done, emitted);
    case _ =>
      OtherFacts(f, a, f', p);
      OtherLine(f, a, f', p, done, emitted);
  }

  lemma EmitsOfBucket(f: Flow, a: FlowAction, p: Pair)
    requires EmitsTo(f, a, p)
    ensures OfBucket(Only(Emits(a), p), p.b)
  {
    if a.Emit? { OneOnly(a.r, p); }
  }

  /** Every step keeps the line. */
  lemma LinedStep(f: Flow, a: FlowAction, f': Flow, p: Pair, done: seq<Record>, emitted: seq<Record>)
    requires StepOf(f, a, f', p) && Lined(f, p, done, emitted)
    ensures Lined(f', p, done + Only(Processed(a), p), emitted + Only(Emits(a), p))
  {
    StillNowhereElse(f, a, f', p, done, emitted);
    EmitsOfBucket(f, a, p);
    LineStep(f, a, f', p, done, emitted);
  }

  // --------------------------------------------------------------------- runs

  function EmittedAt(acts: seq<FlowAction>, p: Pair): nat -> seq<Record> {
    (i: nat) => if i < |acts| then Only(Emits(acts[i]), p) else []
  }

  function ProcessedAt(acts: seq<FlowAction>, p: Pair): nat -> seq<Record> {
    (i: nat) => if i < |acts| then Only(Processed(acts[i]), p) else []
  }

  ghost predicate LinedAt(trace: seq<Flow>, acts: seq<FlowAction>, n: nat, p: Pair)
    requires n < |trace|
  {
    Lined(trace[n], p, Concat(ProcessedAt(acts, p), n), Concat(EmittedAt(acts, p), n))
  }

  lemma IsStepOf(trace: seq<Flow>, acts: seq<FlowAction>, i: nat, p: Pair)
    requires IsFlowRun(trace, acts) && i < |acts| && p.u in trace[0].ups && EmitsTo(trace[i], acts[i], p)
    ensures StepOf(trace[i], acts[i], trace[i + 1], p)
  {
    FlowRunOk(trace, acts, i);
    FlowRunOk(trace, acts, i + 1);
    IsTableRun(trace, acts);
    TablesAt(trace, acts, i, p.u);
  }

  lemma LinedInit(f: Flow, p: Pair)
    requires f.chan == map[] && f.peer == map[]
    ensures Lined(f, p, [], [])
  {
  }

  lemma {:induction false} LinedRun(trace: seq<Flow>, acts: seq<FlowAction>, n: nat, p: Pair)
    requires IsFlowRun(trace, acts) && n < |trace| && p.u in trace[0].ups
    requires forall i: nat | i < |acts| :: EmitsTo(trace[i], acts[i], p)
    ensures LinedAt(trace, acts, n, p)
  {
    if n == 0 {
      LinedInit(trace[0], p);
    } else {
      LinedRun(trace, acts, n - 1, p);
      LinedNext(trace, acts, n - 1, p);
    }
  }

  lemma LinedNext(trace: seq<Flow>, acts: seq<FlowAction>, n: nat, p: Pair)
    requires IsFlowRun(trace, acts) && n < |acts| && p.u in trace[0].ups
    requires EmitsTo(trace[n], acts[n], p) && LinedAt(trace, acts, n, p)
    ensures LinedAt(trace, acts, n + 1, p)
  {
    IsStepOf(trace, acts, n, p);
    LinedStep(trace[n], acts[n], trace[n + 1], p, Concat(ProcessedAt(acts, p), n), Concat(EmittedAt(acts, p), n));
  }

  // --------------------------------------------------------------- the theorem

  /** acts[i] and acts[j] emit two records of one bucket, from one upstream task that
      does not switch in between. */
  ghost predicate EmitsBoth(acts: seq<FlowAction>, i: nat, j: nat) {
    && i < j < |acts| && acts[i].Emit? && acts[j].Emit?
    && acts[i].u == acts[j].u && acts[i].r.bucket == acts[j].r.bucket
    && forall m | i <= m < j :: acts[m] != Switch(acts[i].u)
  }

  lemma {:induction false} SameRoute(table: Table, acts: seq<FlowAction>, i: nat, j: nat, u: Upstream)
    requires i <= j <= |acts| && forall m | i <= m < j :: acts[m] != Switch(u)
    ensures RouteAt(table, acts, j, u) == RouteAt(table, acts, i, u)
  {
    if i < j { SameRoute(table, acts, i, j - 1, u); }
  }

  lemma PairOf(trace: seq<Flow>, acts: seq<FlowAction>, i: nat, j: nat) returns (p: Pair)
    requires IsFlowRun(trace, acts) && DistinctRecords(acts) && EmitsBoth(acts, i, j)
    ensures p.first == acts[i].r && p.second == acts[j].r && p.u in trace[0].ups
    ensures forall m: nat | m < |acts| :: EmitsTo(trace[m], acts[m], p)
  {
    var u, b, table := acts[i].u, acts[i].r.bucket, trace[0].table;
    IsTableRun(trace, acts);
    TablesAt(trace, acts, i, u);
    TablesAt(trace, acts, j, u);
    SameRoute(table, acts, i, j, u);
    EmitRouted(trace, acts, i);
    p := Pair(u, trace[i].route[u][b], b, acts[i].r, acts[j].r);
    EmitRouted(trace, acts, j);
    forall m: nat | m < |acts| ensures EmitsTo(trace[m], acts[m], p) {
      if acts[m].Emit? && In(p, acts[m].r) { assert m == i || m == j; }
    }
  }

  lemma EmitRouted(trace: seq<Flow>, acts: seq<FlowAction>, i: nat)
    requires IsFlowRun(trace, acts) && i < |acts| && acts[i].Emit?
    ensures acts[i].u in trace[i].ups && acts[i].u in trace[i].route
    ensures acts[i].r.bucket < |trace[i].route[acts[i].u]|
  {
    assert FlowStep(trace[i], acts[i], trace[i + 1]);
  }

  lemma EmittedNow(acts: seq<FlowAction>, i: nat, j: nat, n: nat, p: Pair)
    requires DistinctRecords(acts) && EmitsBoth(acts, i, j) && n < |acts|
    requires p.first == acts[i].r && p.second == acts[j].r
    ensures EmittedAt(acts, p)(n) == if n == i then [p.first] else if n == j then [p.second] else []
  {
    if acts[n].Emit? {
      OneOnly(acts[n].r, p);
      assert In(p, acts[n].r) <==> n == i || n == j;
    }
  }

  /** The two records, as far as they are emitted. */
  function Both(i: nat, j: nat, n: nat, p: Pair): seq<Record> {
    if n <= i then [] else if n <= j then [p.first] else [p.first, p.second]
  }

  lemma {:induction false} TwoOnly(f: nat -> seq<Record>, i: nat, j: nat, n: nat, p: Pair)
    requires i < j
    requires forall m: nat | m < n :: f(m) == if m == i then [p.first] else if m == j then [p.second] else []
    ensures Concat(f, n) == Both(i, j, n, p)
  {
    if n > 0 { TwoOnly(f, i, j, n - 1, p); }
  }

  lemma EmittedIs(acts: seq<FlowAction>, i: nat, j: nat, n: nat, p: Pair)
    requires DistinctRecords(acts) && EmitsBoth(acts, i, j) && n <= |acts|
    requires p.first == acts[i].r && p.second == acts[j].r
    ensures Concat(EmittedAt(acts, p), n) == Both(i, j, n, p)
  {
    var f := EmittedAt(acts, p);
    forall m: nat | m < n ensures f(m) == if m == i then [p.first] else if m == j then [p.second] else [] {
      EmittedNow(acts, i, j, m, p);
    }
    TwoOnly(f, i, j, n, p);
  }

  lemma ProcessedNow(acts: seq<FlowAction>, n: nat, p: Pair)
    requires n < |acts|
    ensures ProcessedAt(acts, p)(n) ==
            if (acts[n].Process? || acts[n].ProcessPeer?) && In(p, acts[n].r) then [acts[n].r] else []
  {
    if acts[n].Process? || acts[n].ProcessPeer? { OneOnly(acts[n].r, p); }
  }

  lemma {:induction false} WasProcessed(acts: seq<FlowAction>, n: nat, p: Pair, r: Record) returns (h: nat)
    requires n <= |acts| && r in Concat(ProcessedAt(acts, p), n)
    ensures h < n && ProcessesRecord(acts[h], r.id)
  {
    var m: nat := n - 1;
    ProcessedNow(acts, m, p);
    var init, now := Concat(ProcessedAt(acts, p), m), ProcessedAt(acts, p)(m);
    assert Concat(ProcessedAt(acts, p), n) == init + now;
    if r in init {
      h := WasProcessed(acts, m, p, r);
    } else {
      assert r in now;
      h := m;
    }
  }

  /** The first, the first and the second, or neither. */
  ghost predicate InPair(rs: seq<Record>, p: Pair) {
    rs <= [p.first, p.second]
  }

  lemma EmittedInPair(acts: seq<FlowAction>, i: nat, j: nat, n: nat, p: Pair)
    requires DistinctRecords(acts) && EmitsBoth(acts, i, j) && n <= |acts|
    requires p.first == acts[i].r && p.second == acts[j].r
    ensures InPair(Concat(EmittedAt(acts, p), n), p)
  {
    EmittedIs(acts, i, j, n, p);
  }

  lemma LinePrefix(f: Flow, p: Pair, done: seq<Record>, emitted: seq<Record>)
    requires Lined(f, p, done, emitted) && InPair(emitted, p)
    ensures InPair(done, p)
  {
    assert emitted == done + (SentOnward(f, p) + OnChan(f, p.u, p.w, p));
  }

  /** The processed records are the first of the emitted ones. */
  lemma ProcessedInPair(trace: seq<Flow>, acts: seq<FlowAction>, n: nat, p: Pair)
    requires IsFlowRun(trace, acts) && n < |trace| && p.u in trace[0].ups
    requires forall i: nat | i < |acts| :: EmitsTo(trace[i], acts[i], p)
    requires InPair(Concat(EmittedAt(acts, p), n), p)
    ensures InPair(Concat(ProcessedAt(acts, p), n), p)
  {
    LinedRun(trace, acts, n, p);
    LinePrefix(trace[n], p, Concat(ProcessedAt(acts, p), n), Concat(EmittedAt(acts, p), n));
  }

  lemma SecondNeedsFirst(before: seq<Record>, r: Record, p: Pair)
    requires InPair(before + [r], p) && r.id == p.second.id != p.first.id
    ensures p.first in before
  {
    assert (before + [r])[|before|] == r;
    assert |before| == 1 && before[0] == (before + [r])[0];
  }

  lemma ConcatNext<T>(f: nat -> seq<T>, n: nat)
    ensures Concat(f, n + 1) == Concat(f, n) + f(n)
  {
  }

  lemma FirstWasProcessed(acts: seq<FlowAction>, q: nat, p: Pair) returns (h: nat)
    requires q < |acts| && p.first.id != p.second.id && ProcessesRecord(acts[q], p.second.id)
    requires InPair(Concat(ProcessedAt(acts, p), q + 1), p)
    ensures h < q && ProcessesRecord(acts[h], p.first.id)
  {
    ProcessedNow(acts, q, p);
    ConcatNext(ProcessedAt(acts, p), q);
    SecondNeedsFirst(Concat(ProcessedAt(acts, p), q), acts[q].r, p);
    h := WasProcessed(acts, q, p, p.first);
  }

  /** Per-key order: of two records of a bucket that an upstream task emits one after
      the other under one routing table, the second is processed only after the
      first one was. */
  lemma ProcessedInOrder(trace: seq<Flow>, acts: seq<FlowAction>, i: nat, j: nat, q: nat) returns (h: nat)
    requires IsFlowRun(trace, acts) && DistinctRecords(acts) && EmitsBoth(acts, i, j)
    requires q < |acts| && ProcessesRecord(acts[q], acts[j].r.id)
    ensures h < q && ProcessesRecord(acts[h], acts[i].r.id)
  {
    var p := PairOf(trace, acts, i, j);
    EmittedInPair(acts, i, j, q + 1, p);
    ProcessedInPair(trace, acts, q + 1, p);
    h := FirstWasProcessed(acts, q, p);
  }
}

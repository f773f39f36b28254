/**
 What the reconfiguration protocol guarantees in every run: one writer per
 bucket, no record lost or processed twice, and a clean exit of the senders.
 */
module FlowProperties {
  import opened Types
  import opened KeyedStore
  import opened RecordFlow

  ghost predicate FlowInit(f: Flow) {
    && f.stage == Idle && f.next == f.table && f.ups != {} && f.active <= f.deployed
    && f.chan == map[] && f.peer == map[] && f.phase == map[] && f.count == map[] && f.got == map[] && f.sent == {}
    && f.route.Keys == f.ups && (forall u | u in f.ups :: f.route[u] == f.table)
    && (forall b: Bucket | b < |f.table| :: f.table[b] in f.active && b in f.home && f.home[b] == At(f.table[b]))
  }

  ghost predicate IsFlowRun(trace: seq<Flow>, acts: seq<FlowAction>) {
    && |trace| == |acts| + 1
    && FlowInit(trace[0])
    && forall i | 0 <= i < |acts| :: FlowStep(trace[i], acts[i], trace[i + 1])
  }

  lemma FlowInitOk(f: Flow)
    requires FlowInit(f)
    ensures FlowOk(f)
  {
    forall w: WorkerId ensures WorkerOk(f, w) {}
    forall u: Upstream, w: WorkerId ensures ChanOk(f, u, w) {}
    forall src: WorkerId, dst: WorkerId ensures PeerOk(f, src, dst) {}
    forall b: Bucket | b < |f.table| ensures HomeOk(f, b) {}
  }

  lemma {:induction false} FlowRunOk(trace: seq<Flow>, acts: seq<FlowAction>, i: nat)
    requires IsFlowRun(trace, acts) && i < |trace|
    ensures FlowOk(trace[i])
  {
    if i == 0 {
      FlowInitOk(trace[0]);
    } else {
      FlowRunOk(trace, acts, i - 1);
      FlowStepKeeps(trace[i - 1], acts[i - 1], trace[i]);
    }
  }

  // -------------------------------------------------------- single writer

  lemma ProcessAtHome(f: Flow, u: Upstream, w: WorkerId, r: Record)
    requires FlowOk(f) && CanTake(f, u, w, Rec(r)) && !Forwards(f, w, r)
    ensures r.bucket in f.home && f.home[r.bucket] == At(w)
  {
    TakenKeeps(f, u, w, r);
    assert WorkerOk(f, w) && HomeOk(f, r.bucket);
    if AfterSwitch(f) {
      FinishedHome(f, r.bucket);
      if PhaseOf(f, w) == Normal { ExitedSender(f, u, w, r); }
    } else if w in f.sent && PhaseOf(f, w) == Normal {
      ExitedAfterSwitch(f, w);
    }
  }

  lemma GivesAway(f: Flow, w: WorkerId, b: Bucket)
    requires |f.next| == |f.table| && b < |f.table|
    ensures f.table[b] == w && f.next[b] != w ==> IsSender(f, w)
  {
  }

  /** A sender that left the transition phase has no record of a bucket it gave
      away left on its upstream channels. */
  lemma ExitedSender(f: Flow, u: Upstream, w: WorkerId, r: Record)
    requires FlowOk(f) && AfterSwitch(f) && PhaseOf(f, w) == Normal && Rec(r) in Chan(f, u, w)
    ensures r.bucket < |f.next| && f.next[r.bucket] == w
  {
    assert ChanOk(f, u, w) && WorkerOk(f, w);
    assert u in f.ups;
    var c := Chan(f, u, w);
    var i :| 0 <= i < |c| && c[i] == Rec(r);
    if !Switched(f, u) {
      assert RoutedTo(f.table, w, c[i]);
      GivesAway(f, w, r.bucket);
    } else if u !in Got(f, w) && w in f.active + f.updated {
      var p :| BarrierAt(f.table, f.next, w, c, p);
      assert RoutedTo(f.table, w, c[i]) || RoutedTo(f.next, w, c[i]);
      GivesAway(f, w, r.bucket);
    }
  }

  lemma ProcessPeerAtHome(f: Flow, src: WorkerId, dst: WorkerId, r: Record)
    requires FlowOk(f) && Peer(f, src, dst) != [] && Peer(f, src, dst)[0] == Forwarded(r)
    ensures r.bucket in f.home && f.home[r.bucket] == At(dst)
    ensures !Forwards(f, dst, r)
  {
    assert PeerOk(f, src, dst) && HomeOk(f, r.bucket);
  }

  /** Single writer: a record is processed only by the worker that holds the key
      map of its bucket, in every state of every run. */
  lemma SingleWriter(trace: seq<Flow>, acts: seq<FlowAction>, i: nat)
    requires IsFlowRun(trace, acts) && i < |acts|
    ensures acts[i].Process? ==> Lookup(trace[i].home, acts[i].r.bucket) == Some(At(acts[i].w))
    ensures acts[i].ProcessPeer? ==> Lookup(trace[i].home, acts[i].r.bucket) == Some(At(acts[i].dst))
  {
    FlowRunOk(trace, acts, i);
    assert FlowStep(trace[i], acts[i], trace[i + 1]);
    match acts[i]
    case Process(u, w, r) => ProcessAtHome(trace[i], u, w, r);
    case ProcessPeer(src, dst, r) => ProcessPeerAtHome(trace[i], src, dst, r);
    case _ =>
  }

  /** After a sender exits at the aligned barrier, no record of a transferred
      bucket is left on its upstream channels. */
  lemma CleanExit(trace: seq<Flow>, acts: seq<FlowAction>, i: nat, w: WorkerId, u: Upstream, r: Record)
    requires IsFlowRun(trace, acts) && i < |trace|
    requires w in trace[i].sent && PhaseOf(trace[i], w) == Normal && Rec(r) in Chan(trace[i], u, w)
    ensures r.bucket < |trace[i].next| && trace[i].next[r.bucket] == w
  {
    FlowRunOk(trace, acts, i);
    var f := trace[i];
    assert WorkerOk(f, w) && ChanOk(f, u, w);
    ExitedAfterSwitch(f, w);
    ExitedSender(f, u, w, r);
  }

  lemma ExitedAfterSwitch(f: Flow, w: WorkerId)
    requires FlowOk(f) && w in f.sent && PhaseOf(f, w) == Normal
    ensures AfterSwitch(f)
  {
    assert WorkerOk(f, w);
    var u :| u in f.ups;
    assert ChanOk(f, u, w);
  }

  // --------------------------------------------------------- conservation

  /** Where a record is: on a channel, or processed by a worker. */
  datatype Place = InChan(u: Upstream, w: WorkerId) | InPeer(src: WorkerId, dst: WorkerId) | Done(w: WorkerId)

  type Places = map<nat, Place>

  function PlaceStep(p: Places, f: Flow, a: FlowAction): Places {
    match a
    case Emit(u, r) => if CanEmit(f, u, r) then p[r.id := InChan(u, f.route[u][r.bucket])] else p
    case Process(_, w, r) => p[r.id := Done(w)]
    case Forward(_, w, r) => if Forwards(f, w, r) then p[r.id := InPeer(w, f.next[r.bucket])] else p
    case ProcessPeer(_, dst, r) => p[r.id := Done(dst)]
    case _ => p
  }

  function Occurs(c: seq<Item>, id: nat): nat {
    if c == [] then 0 else (if c[0].Rec? && c[0].r.id == id then 1 else 0) + Occurs(c[1..], id)
  }

  function OccursPeer(c: seq<PeerItem>, id: nat): nat {
    if c == [] then 0 else (if c[0].Forwarded? && c[0].r.id == id then 1 else 0) + OccursPeer(c[1..], id)
  }

  lemma OccursAppend(c: seq<Item>, x: Item, id: nat)
    ensures Occurs(c + [x], id) == Occurs(c, id) + (if x.Rec? && x.r.id == id then 1 else 0)
  {
    if c == [] {
      assert c + [x] == [x];
    } else {
      assert (c + [x])[1..] == c[1..] + [x];
    }
  }

  lemma OccursPeerAppend(c: seq<PeerItem>, x: PeerItem, id: nat)
    ensures OccursPeer(c + [x], id) == OccursPeer(c, id) + (if x.Forwarded? && x.r.id == id then 1 else 0)
  {
    if c == [] {
      assert c + [x] == [x];
    } else {
      assert (c + [x])[1..] == c[1..] + [x];
    }
  }

  /** A record occurs once on the channel it is placed on and nowhere else. */
  ghost predicate ChanHas(f: Flow, p: Option<Place>, id: nat, u: Upstream, w: WorkerId) {
    Occurs(Chan(f, u, w), id) == if p == Some(InChan(u, w)) then 1 else 0
  }

  ghost predicate PeerHas(f: Flow, p: Option<Place>, id: nat, src: WorkerId, dst: WorkerId) {
    OccursPeer(Peer(f, src, dst), id) == if p == Some(InPeer(src, dst)) then 1 else 0
  }

  ghost predicate Conserved(f: Flow, p: Option<Place>, id: nat) {
    && (forall u: Upstream, w: WorkerId :: ChanHas(f, p, id, u, w))
    && (forall src: WorkerId, dst: WorkerId :: PeerHas(f, p, id, src, dst))
  }

  lemma ConservedEmit(f: Flow, p: Places, id: nat, u: Upstream, r: Record)
    requires Conserved(f, Lookup(p, id), id) && CanEmit(f, u, r) && r.id !in p
    ensures Conserved(DoEmit(f, u, r), Lookup(PlaceStep(p, f, Emit(u, r)), id), id)
  {
    var f', p' := DoEmit(f, u, r), PlaceStep(p, f, Emit(u, r));
    var w := f.route[u][r.bucket];
    OccursAppend(Chan(f, u, w), Rec(r), id);
    forall u': Upstream, w': WorkerId
      ensures ChanHas(f', Lookup(p', id), id, u', w')
    {
      assert ChanHas(f, Lookup(p, id), id, u', w');
    }
    forall s: WorkerId, d: WorkerId
      ensures PeerHas(f', Lookup(p', id), id, s, d)
    {
      assert PeerHas(f, Lookup(p, id), id, s, d);
    }
  }

  lemma ConservedTake(f: Flow, p: Option<Place>, id: nat, u: Upstream, w: WorkerId)
    requires Conserved(f, p, id) && Chan(f, u, w) != []
    ensures var i := Chan(f, u, w)[0];
            if i.Rec? && i.r.id == id then p == Some(InChan(u, w)) && Conserved(Taken(f, u, w), None, id)
            else Conserved(Taken(f, u, w), p, id)
  {
    var f' := Taken(f, u, w);
    assert ChanHas(f, p, id, u, w);
    var i := Chan(f, u, w)[0];
    var p' := if i.Rec? && i.r.id == id then None else p;
    forall u': Upstream, w': WorkerId ensures ChanHas(f', p', id, u', w') { assert ChanHas(f, p, id, u', w'); }
    forall s: WorkerId, d: WorkerId ensures PeerHas(f', p', id, s, d) { assert PeerHas(f, p, id, s, d); }
  }

  lemma ConservedForward(f: Flow, p: Places, id: nat, u: Upstream, w: WorkerId, r: Record)
    requires Conserved(f, Lookup(p, id), id) && CanTake(f, u, w, Rec(r)) && Forwards(f, w, r)
    ensures Conserved(DoForward(f, u, w, r), Lookup(PlaceStep(p, f, Forward(u, w, r)), id), id)
  {
    var f', g, q := DoForward(f, u, w, r), Taken(f, u, w), Lookup(PlaceStep(p, f, Forward(u, w, r)), id);
    var p' := if r.id == id then None else Lookup(p, id);
    ConservedTake(f, Lookup(p, id), id, u, w);
    OccursPeerAppend(Peer(f, w, f.next[r.bucket]), Forwarded(r), id);
    forall u': Upstream, w': WorkerId ensures ChanHas(f', q, id, u', w') { assert ChanHas(g, p', id, u', w'); }
    forall s: WorkerId, d: WorkerId ensures PeerHas(f', q, id, s, d) { assert PeerHas(g, p', id, s, d); }
  }

  lemma ConservedPop(f: Flow, p: Option<Place>, id: nat, src: WorkerId, dst: WorkerId, home: map<Bucket, Home>)
    requires Conserved(f, p, id) && Peer(f, src, dst) != []
    ensures var i, f' := Peer(f, src, dst)[0], f.(peer := f.peer[(src, dst) := Peer(f, src, dst)[1..]], home := home);
            if i.Forwarded? && i.r.id == id then p == Some(InPeer(src, dst)) && Conserved(f', None, id)
            else Conserved(f', p, id)
  {
    var i, f' := Peer(f, src, dst)[0], f.(peer := f.peer[(src, dst) := Peer(f, src, dst)[1..]], home := home);
    assert PeerHas(f, p, id, src, dst);
    var p' := if i.Forwarded? && i.r.id == id then None else p;
    forall u': Upstream, w': WorkerId ensures ChanHas(f', p', id, u', w') { assert ChanHas(f, p, id, u', w'); }
    forall s: WorkerId, d: WorkerId ensures PeerHas(f', p', id, s, d) { assert PeerHas(f, p, id, s, d); }
  }

  lemma ConservedSwitch(f: Flow, p: Option<Place>, id: nat, u: Upstream)
    requires Conserved(f, p, id)
    ensures Conserved(DoSwitch(f, u), p, id)
  {
    var f' := DoSwitch(f, u);
    forall u': Upstream, w': WorkerId ensures ChanHas(f', p, id, u', w') {
      assert ChanHas(f, p, id, u', w');
      OccursAppend(Chan(f, u', w'), Barrier, id);
    }
    forall s: WorkerId, d: WorkerId ensures PeerHas(f', p, id, s, d) { assert PeerHas(f, p, id, s, d); }
  }

  lemma ConservedSendMaps(f: Flow, p: Option<Place>, id: nat, w: WorkerId)
    requires Conserved(f, p, id)
    ensures Conserved(DoSendMaps(f, w), p, id)
  {
    var f' := DoSendMaps(f, w);
    forall u': Upstream, w': WorkerId ensures ChanHas(f', p, id, u', w') { assert ChanHas(f, p, id, u', w'); }
    forall s: WorkerId, d: WorkerId ensures PeerHas(f', p, id, s, d) {
      assert PeerHas(f, p, id, s, d);
      OccursPeerAppend(Peer(f, s, d), KeyMaps(Moved(f, s, d)), id);
    }
  }

  lemma ConservedFrame(f: Flow, f': Flow, p: Option<Place>, id: nat)
    requires Conserved(f, p, id) && f'.chan == f.chan && f'.peer == f.peer
    ensures Conserved(f', p, id)
  {
    forall u': Upstream, w': WorkerId ensures ChanHas(f', p, id, u', w') { assert ChanHas(f, p, id, u', w'); }
    forall s: WorkerId, d: WorkerId ensures PeerHas(f', p, id, s, d) { assert PeerHas(f, p, id, s, d); }
  }

  ghost predicate Fresh(p: Places, a: FlowAction) {
    a.Emit? ==> a.r.id !in p
  }

  lemma PlaceDone(f: Flow, p: Places, id: nat, d: WorkerId)
    requires Conserved(f, None, id)
    ensures Conserved(f, Some(Done(d)), id)
  {
    forall u': Upstream, w': WorkerId
      ensures ChanHas(f, Some(Done(d)), id, u', w')
    {
      assert ChanHas(f, None, id, u', w');
    }
    forall s: WorkerId, e: WorkerId ensures PeerHas(f, Some(Done(d)), id, s, e) { assert PeerHas(f, None, id, s, e); }
  }

  lemma ConservedStep(f: Flow, a: FlowAction, f': Flow, p: Places, id: nat)
    requires FlowStep(f, a, f') && Conserved(f, Lookup(p, id), id) && Fresh(p, a)
    ensures Conserved(f', Lookup(PlaceStep(p, f, a), id), id)
  {
    match a
    case Emit(u, r) => ConservedEmit(f, p, id, u, r);
    case Process(u, w, r) =>
      ConservedTake(f, Lookup(p, id), id, u, w);
      if r.id == id { PlaceDone(f', p, id, w); }
    case Forward(u, w, r) => ConservedForward(f, p, id, u, w, r);
    case TakeBarrier(u, w) =>
      ConservedTake(f, Lookup(p, id), id, u, w);
      ConservedFrame(Taken(f, u, w), f', Lookup(p, id), id);
    case ProcessPeer(src, dst, r) =>
      ConservedPop(f, Lookup(p, id), id, src, dst, f.home);
      if r.id == id { PlaceDone(f', p, id, dst); }
    case Connect(src, dst) => ConservedPop(f, Lookup(p, id), id, src, dst, f'.home);
    case Switch(u) => ConservedSwitch(f, Lookup(p, id), id, u);
    case SendMaps(w) => ConservedSendMaps(f, Lookup(p, id), id, w);
    case _ => ConservedFrame(f, f', Lookup(p, id), id);
  }

  /** Every record is emitted once. */
  ghost predicate DistinctRecords(acts: seq<FlowAction>) {
    forall i, j | 0 <= i < j < |acts| && acts[i].Emit? && acts[j].Emit? :: acts[i].r.id != acts[j].r.id
  }

  ghost predicate EmittedBefore(acts: seq<FlowAction>, n: int, id: nat) {
    exists i :: 0 <= i < n <= |acts| && acts[i].Emit? && acts[i].r.id == id
  }

  function PlacesAt(trace: seq<Flow>, acts: seq<FlowAction>, n: nat): Places
    requires n <= |acts| <= |trace|
  {
    if n == 0 then map[] else PlaceStep(PlacesAt(trace, acts, n - 1), trace[n - 1], acts[n - 1])
  }

  ghost predicate ProcessesRecord(a: FlowAction, id: nat) {
    (a.Process? || a.ProcessPeer?) && a.r.id == id
  }

  /** Conservation: at every moment of every run each emitted record has exactly
      one place, on one channel or processed, and occurs there exactly once; a
      record that was not emitted occurs nowhere. */
  lemma {:induction false} Conservation(trace: seq<Flow>, acts: seq<FlowAction>, n: nat, id: nat)
    requires IsFlowRun(trace, acts) && DistinctRecords(acts) && n < |trace|
    ensures Conserved(trace[n], Lookup(PlacesAt(trace, acts, n), id), id)
    ensures id in PlacesAt(trace, acts, n) <==> EmittedBefore(acts, n, id)
  {
    if n > 0 {
      Conservation(trace, acts, n - 1, id);
      var a, p := acts[n - 1], PlacesAt(trace, acts, n - 1);
      assert FlowStep(trace[n - 1], a, trace[n]);
      if a.Emit? { Conservation(trace, acts, n - 1, a.r.id); }
      ConservedStep(trace[n - 1], a, trace[n], p, id);
      PlacedStep(trace[n - 1], a, trace[n], p, id);
      EmittedStep(acts, n, id);
    } else {
      forall u: Upstream, w: WorkerId ensures ChanHas(trace[0], None, id, u, w) {}
      forall s: WorkerId, d: WorkerId ensures PeerHas(trace[0], None, id, s, d) {}
    }
  }

  lemma TakesPlaced(f: Flow, a: FlowAction, f': Flow, p: Places)
    requires FlowStep(f, a, f') && (a.Process? || a.Forward? || a.ProcessPeer?)
    requires Conserved(f, Lookup(p, a.r.id), a.r.id)
    ensures a.r.id in p && !p[a.r.id].Done?
  {
    match a
    case Process(u, w, r) => ConservedTake(f, Lookup(p, r.id), r.id, u, w);
    case Forward(u, w, r) => ConservedTake(f, Lookup(p, r.id), r.id, u, w);
    case ProcessPeer(src, dst, r) => ConservedPop(f, Lookup(p, r.id), r.id, src, dst, f.home);
  }

  /** Only emitting gives a record its first place. */
  lemma PlacedStep(f: Flow, a: FlowAction, f': Flow, p: Places, id: nat)
    requires FlowStep(f, a, f') && Conserved(f, Lookup(p, id), id)
    ensures id in PlaceStep(p, f, a) <==> id in p || (a.Emit? && a.r.id == id)
  {
    if (a.Process? || a.Forward? || a.ProcessPeer?) && a.r.id == id {
      TakesPlaced(f, a, f', p);
    }
  }

  lemma EmittedStep(acts: seq<FlowAction>, n: nat, id: nat)
    requires 0 < n <= |acts|
    ensures EmittedBefore(acts, n, id) <==>
            EmittedBefore(acts, n - 1, id) || (acts[n - 1].Emit? && acts[n - 1].r.id == id)
  {
    if EmittedBefore(acts, n - 1, id) {
      var i :| 0 <= i < n - 1 && acts[i].Emit? && acts[i].r.id == id;
      assert EmittedBefore(acts, n, id);
    }
  }

  /** One step keeps a processed record processed; only processing makes it so. */
  lemma DoneStep(p: Places, f: Flow, a: FlowAction, id: nat)
    ensures id in p && p[id].Done? && !((a.Emit? || a.Forward?) && a.r.id == id)
            ==> id in PlaceStep(p, f, a) && PlaceStep(p, f, a)[id].Done?
    ensures id in PlaceStep(p, f, a) && PlaceStep(p, f, a)[id].Done? && !ProcessesRecord(a, id)
            ==> id in p && p[id].Done?
    ensures ProcessesRecord(a, id) ==> id in PlaceStep(p, f, a) && PlaceStep(p, f, a)[id].Done?
  {
  }

  ghost predicate DoneAt(trace: seq<Flow>, acts: seq<FlowAction>, n: nat, id: nat)
    requires n <= |acts| <= |trace|
  {
    id in PlacesAt(trace, acts, n) && PlacesAt(trace, acts, n)[id].Done?
  }

  lemma DoneNext(trace: seq<Flow>, acts: seq<FlowAction>, n: nat, id: nat)
    requires 0 < n <= |acts| <= |trace|
    requires ProcessesRecord(acts[n - 1], id)
          || (DoneAt(trace, acts, n - 1, id) &&
              !((acts[n - 1].Emit? || acts[n - 1].Forward?) && acts[n - 1].r.id == id))
    ensures DoneAt(trace, acts, n, id)
  {
    DoneStep(PlacesAt(trace, acts, n - 1), trace[n - 1], acts[n - 1], id);
  }

  lemma {:induction false} DoneStays(trace: seq<Flow>, acts: seq<FlowAction>, i: nat, n: nat, id: nat)
    requires IsFlowRun(trace, acts) && DistinctRecords(acts) && i < n < |trace|
    requires ProcessesRecord(acts[i], id)
    ensures DoneAt(trace, acts, n, id)
  {
    if n > i + 1 {
      DoneStays(trace, acts, i, n - 1, id);
      NotTakenAgain(trace, acts, n, id);
    }
    DoneNext(trace, acts, n, id);
  }

  lemma DoneNotForwarded(f: Flow, a: FlowAction, f': Flow, p: Places, id: nat)
    requires FlowStep(f, a, f') && Conserved(f, Lookup(p, id), id) && id in p && p[id].Done?
    ensures !(a.Forward? && a.r.id == id)
  {
    if a.Forward? && a.r.id == id { TakesPlaced(f, a, f', p); }
  }

  lemma EmittedOnce(acts: seq<FlowAction>, n: nat, id: nat)
    requires DistinctRecords(acts) && n < |acts| && EmittedBefore(acts, n, id)
    ensures !(acts[n].Emit? && acts[n].r.id == id)
  {
  }

  lemma NotTakenAgain(trace: seq<Flow>, acts: seq<FlowAction>, n: nat, id: nat)
    requires IsFlowRun(trace, acts) && DistinctRecords(acts) && 0 < n < |trace|
    requires DoneAt(trace, acts, n - 1, id)
    ensures !((acts[n - 1].Emit? || acts[n - 1].Forward?) && acts[n - 1].r.id == id)
  {
    Conservation(trace, acts, n - 1, id);
    EmittedOnce(acts, n - 1, id);
    DoneNotForwarded(trace[n - 1], acts[n - 1], trace[n], PlacesAt(trace, acts, n - 1), id);
  }

  /** No record is processed twice, neither by one worker nor by two. */
  lemma ProcessedOnce(trace: seq<Flow>, acts: seq<FlowAction>, i: nat, j: nat, id: nat)
    requires IsFlowRun(trace, acts) && DistinctRecords(acts) && i < |acts| && j < |acts|
    requires ProcessesRecord(acts[i], id) && ProcessesRecord(acts[j], id)
    ensures i == j
  {
    if i != j {
      var lo, hi := if i < j then i else j, if i < j then j else i;
      DoneStays(trace, acts, lo, hi, id);
      Conservation(trace, acts, hi, id);
      assert FlowStep(trace[hi], acts[hi], trace[hi + 1]);
      TakesPlaced(trace[hi], acts[hi], trace[hi + 1], PlacesAt(trace, acts, hi));
    }
  }

  /** Every channel is empty. */
  ghost predicate Quiet(f: Flow) {
    && (forall u: Upstream, w: WorkerId :: Chan(f, u, w) == [])
    && (forall src: WorkerId, dst: WorkerId :: Peer(f, src, dst) == [])
  }

  lemma QuietDone(f: Flow, p: Place, id: nat)
    requires Quiet(f) && Conserved(f, Some(p), id)
    ensures p.Done?
  {
    assert p.InChan? ==> ChanHas(f, Some(p), id, p.u, p.w);
    assert p.InPeer? ==> PeerHas(f, Some(p), id, p.src, p.dst);
  }

  lemma {:induction false} DoneWasProcessed(trace: seq<Flow>, acts: seq<FlowAction>, n: nat, id: nat) returns (i: nat)
    requires n <= |acts| <= |trace| && DoneAt(trace, acts, n, id)
    ensures i < n && ProcessesRecord(acts[i], id)
  {
    if ProcessesRecord(acts[n - 1], id) {
      i := n - 1;
    } else {
      DoneStep(PlacesAt(trace, acts, n - 1), trace[n - 1], acts[n - 1], id);
      i := DoneWasProcessed(trace, acts, n - 1, id);
    }
  }

  /** Once nothing is in flight, every emitted record has been processed, by
      exactly one step of the run. */
  lemma NothingLost(trace: seq<Flow>, acts: seq<FlowAction>, n: nat, id: nat) returns (i: nat)
    requires IsFlowRun(trace, acts) && DistinctRecords(acts) && n < |trace|
    requires EmittedBefore(acts, n, id) && Quiet(trace[n])
    ensures i < n && ProcessesRecord(acts[i], id)
    ensures forall j :: 0 <= j < |acts| && ProcessesRecord(acts[j], id) ==> j == i
  {
    Conservation(trace, acts, n, id);
    QuietDone(trace[n], PlacesAt(trace, acts, n)[id], id);
    i := DoneWasProcessed(trace, acts, n, id);
    forall j | 0 <= j < |acts| && ProcessesRecord(acts[j], id) ensures j == i {
      ProcessedOnce(trace, acts, i, j, id);
    }
  }
}

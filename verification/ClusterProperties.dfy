/**
 What every run of the whole system guarantees, through any number of
 reconfigurations.
 */
module ClusterProperties {
  import opened Types
  import opened KeyedStore
  import opened StoreInvariant
  import opened StoreValues
  import opened StoreRefinement
  import opened EventualMigration
  import opened RecordFlow
  import opened FlowProperties
  import opened Cluster
  import opened ClusterInvariant

  // ----------------------------------------------------------------- runs

  /** Initial deployment: the history of a bucket is its first owner. */
  ghost predicate SysInit(c: Config, s: Sys) {
    && Init(c, s.store) && FlowInit(s.flow)
    && |s.flow.table| == c.numBuckets && s.store.maps.home == s.flow.home
    && (forall w: WorkerId, b: Bucket | b < c.numBuckets :: (w, b) in s.store.maps.table <==> w in s.flow.deployed)
    && (forall b: Bucket | b < c.numBuckets :: History(s, b) == {s.flow.table[b]})
    && s.hand == map[] && s.told == {} && s.gone == {} && !s.aborted
  }

  ghost predicate IsSysRun(c: Config, trace: seq<Sys>, acts: seq<SysAction>) {
    && |trace| == |acts| + 1
    && ValidConfig(c)
    && SysInit(c, trace[0])
    && forall i: nat | i < |acts| :: StepAt(c, trace, acts, i)
  }

  ghost predicate StepAt(c: Config, trace: seq<Sys>, acts: seq<SysAction>, i: nat)
    requires |trace| == |acts| + 1 && i < |acts|
  {
    SysStep(c, trace[i], acts[i], trace[i + 1])
  }

  function ModelAt(acts: seq<SysAction>, n: nat): Model
    requires n <= |acts|
  {
    if n == 0 then map[] else SysModelStep(ModelAt(acts, n - 1), acts[n - 1])
  }

  lemma SysInitOk(c: Config, s: Sys)
    requires ValidConfig(c) && SysInit(c, s)
    ensures SysOk(c, s, map[])
  {
    InitOk(c, s.store);
    FlowInitOk(s.flow);
    forall w: WorkerId, b: Bucket | b < c.numBuckets ensures OwnerOk(s, w, b) {}
    forall b: Bucket ensures HistoryOk(s, b) {}
    forall k: Key ensures LocatedInHistory(c, s, k) { assert KeyOk(c, s.store, false, k); }
    forall w: WorkerId ensures WorkerEventualOk(c, s, w) {}
  }

  lemma {:induction false} SysRunOk(c: Config, trace: seq<Sys>, acts: seq<SysAction>, i: nat)
    requires IsSysRun(c, trace, acts) && i < |trace|
    ensures SysOk(c, trace[i], ModelAt(acts, i))
  {
    if i == 0 {
      SysInitOk(c, trace[0]);
    } else {
      SysRunOk(c, trace, acts, i - 1);
      assert StepAt(c, trace, acts, i - 1);
      SysStepKeeps(c, trace[i - 1], acts[i - 1], trace[i], ModelAt(acts, i - 1));
      assert ModelAt(acts, i) == SysModelStep(ModelAt(acts, i - 1), acts[i - 1]);
    }
  }

  /** The step of the state that goes with a step of the system. */
  function StoreAction(s: Sys, a: SysAction): Option<Action> {
    match a
    case State(x) => Some(x)
    case StartBatch(w, keys) => Some(Begin(w, keys))
    case NewTask(w) => Some(Deploy(w, s.flow.next))
    case HandOver(w) => Some(Depart(w, s.flow.next))
    case TakeOver(src, dst) => Some(Install(dst, src, Arriving(s.flow, src, dst)))
    case Message(w, affected) => Some(SetMeta(w, affected))
    case _ => None
  }

  lemma StoreStep(c: Config, s: Sys, a: SysAction, s': Sys)
    requires SysStep(c, s, a, s')
    ensures s'.store == s.store
            || (StoreAction(s, a).Some? && !s'.aborted && Step(c, s.store, StoreAction(s, a).value, s'.store))
  {
  }

  // ---------------------------------------------------------- fatal exits

  /** In every run a worker fails exactly when it deletes a key that is not live,
      starts a scan after the last cancelling worker was counted, or hands over
      with a routine of a leaving key outstanding. Batches find their key maps,
      relocated keys are listed, key maps are there to be sent and find an empty
      place, and messages find the previous migration complete. */
  lemma AbortsExactly(c: Config, trace: seq<Sys>, acts: seq<SysAction>, i: nat)
    requires IsSysRun(c, trace, acts) && i < |acts|
    ensures trace[i + 1].aborted <==> Fatal(c, trace[i], acts[i], ModelAt(acts, i))
  {
    SysRunOk(c, trace, acts, i);
    assert StepAt(c, trace, acts, i);
    SysStepKeeps(c, trace[i], acts[i], trace[i + 1], ModelAt(acts, i));
  }

  /** Only keys that are live at that moment are deleted. */
  ghost predicate LiveDeletes(acts: seq<SysAction>) {
    forall i: nat | i < |acts| :: LiveDelete(acts, i)
  }

  ghost predicate LiveDelete(acts: seq<SysAction>, i: nat)
    requires i < |acts|
  {
    acts[i].State? && acts[i].a.Write? && acts[i].a.op.Drop? ==> acts[i].a.k in ModelAt(acts, i)
  }

  /** Migration is not gradual, or no message names two cancelling workers. */
  ghost predicate OneScanEach(c: Config, acts: seq<SysAction>) {
    c.maxKeys <= 0 || forall i: nat | i < |acts| && acts[i].Message? :: |acts[i].affected| <= 1
  }

  lemma AffectedSame(c: Config, s: Sys, a: SysAction, s': Sys, w: WorkerId)
    requires SysStep(c, s, a, s') && WorkerEventualOk(c, s, w)
    ensures EventualOf(s'.store, w).affected == EventualOf(s.store, w).affected
            || (a.Message? && a.w == w && EventualOf(s'.store, w).affected == a.affected)
  {
    StoreStep(c, s, a, s');
    if s'.store != s.store {
      var x := StoreAction(s, a).value;
      if !(x.SetMeta? && x.w == w) { EventualStep(c, s.store, x, s'.store, w); }
    }
  }

  lemma {:induction false} OneScanRun(c: Config, trace: seq<Sys>, acts: seq<SysAction>, i: nat, w: WorkerId)
    requires IsSysRun(c, trace, acts) && OneScanEach(c, acts) && i < |trace|
    ensures ScansOnce(c, EventualOf(trace[i].store, w))
  {
    if i > 0 {
      OneScanRun(c, trace, acts, i - 1, w);
      AffectedNext(c, trace, acts, i - 1, w);
    }
  }

  lemma AffectedNext(c: Config, trace: seq<Sys>, acts: seq<SysAction>, i: nat, w: WorkerId)
    requires IsSysRun(c, trace, acts) && i < |acts|
    ensures EventualOf(trace[i + 1].store, w).affected == EventualOf(trace[i].store, w).affected
            || (acts[i].Message? && EventualOf(trace[i + 1].store, w).affected == acts[i].affected)
  {
    SysRunOk(c, trace, acts, i);
    assert WorkerEventualOk(c, trace[i], w) && StepAt(c, trace, acts, i);
    AffectedSame(c, trace[i], acts[i], trace[i + 1], w);
  }

  lemma NoLateScan(c: Config, trace: seq<Sys>, acts: seq<SysAction>, i: nat, w: WorkerId, x: WorkerId)
    requires IsSysRun(c, trace, acts) && OneScanEach(c, acts) && i < |trace|
    ensures !Late(trace[i].store, w, x)
  {
    OneScanRun(c, trace, acts, i, w);
    SysRunOk(c, trace, acts, i);
    assert WorkerEventualOk(c, trace[i], w);
    if Late(trace[i].store, w, x) { LateScanNeeds(c, trace[i].store, w, x); }
  }

  /** Senders hand over with no routine of a leaving key outstanding. */
  ghost predicate SendersWait(c: Config, trace: seq<Sys>, acts: seq<SysAction>)
    requires |trace| == |acts| + 1
  {
    forall i: nat | i < |acts| && acts[i].HandOver? ::
      RoutinesDone(c, trace[i].store, acts[i].w, trace[i].flow.next)
  }

  /** No worker ever fails, provided that only live keys are deleted, that no
      worker has to be scanned twice beside another one, and that senders wait. */
  lemma NeverAborts(c: Config, trace: seq<Sys>, acts: seq<SysAction>, i: nat)
    requires IsSysRun(c, trace, acts) && LiveDeletes(acts) && OneScanEach(c, acts) && SendersWait(c, trace, acts)
    requires i < |trace|
    ensures !trace[i].aborted
  {
    if i > 0 {
      AbortsExactly(c, trace, acts, i - 1);
      assert LiveDelete(acts, i - 1);
      var a := acts[i - 1];
      if a.State? && a.a.StartScan? { NoLateScan(c, trace, acts, i - 1, a.a.w, a.a.c); }
    } else {
      assert SysInit(c, trace[0]);
    }
  }

  /** Under the same condition a message finds no scan outstanding. */
  lemma MessageFindsNoScan(c: Config, trace: seq<Sys>, acts: seq<SysAction>, i: nat, w: WorkerId)
    requires IsSysRun(c, trace, acts) && OneScanEach(c, acts) && i < |trace| && w !in trace[i].told
    ensures SessionOf(trace[i].store.sessions, w).scans == map[]
  {
    OneScanRun(c, trace, acts, i, w);
    SysRunOk(c, trace, acts, i);
    assert WorkerEventualOk(c, trace[i], w);
  }

  // ------------------------------------------------------------- theorems

  /** A worker that receives a record, from upstream or from a peer, has the key
      map of its bucket, and it alone has it. */
  lemma ReceiverHasMap(c: Config, trace: seq<Sys>, acts: seq<SysAction>, i: nat)
    requires IsSysRun(c, trace, acts) && i < |acts|
    requires (acts[i].Receive? || acts[i].ReceivePeer?) && acts[i].r.bucket < c.numBuckets
    ensures var w, b := if acts[i].Receive? then acts[i].w else acts[i].dst, acts[i].r.bucket;
            && HasMap(trace[i].store.maps, w, b)
            && b !in trace[i].store.maps.flight
            && forall x: WorkerId | x != w && HasMap(trace[i].store.maps, x, b) ::
                MapAt(trace[i].store.maps, x, b) == map[]
  {
    SysRunOk(c, trace, acts, i);
    assert StepAt(c, trace, acts, i);
    ReceivedAtHome(c, trace[i], acts[i], trace[i + 1], ModelAt(acts, i));
    var w := if acts[i].Receive? then acts[i].w else acts[i].dst;
    OnlyHomeHasMap(c, trace[i].store.maps, w, acts[i].r.bucket);
  }

  lemma ReceivedAtHome(c: Config, s: Sys, a: SysAction, s': Sys, model: Model)
    requires SysOk(c, s, model) && SysStep(c, s, a, s') && (a.Receive? || a.ReceivePeer?)
    ensures Lookup(s.store.maps.home, a.r.bucket) == Some(At(if a.Receive? then a.w else a.dst))
  {
    match a
    case Receive(u, w, r) => ProcessAtHome(s.flow, u, w, r);
    case ReceivePeer(src, dst, r) => ProcessPeerAtHome(s.flow, src, dst, r);
  }

  lemma OnlyHomeHasMap(c: Config, m: Maps, w: WorkerId, b: Bucket)
    requires TablesOk(c, m) && b < c.numBuckets && Lookup(m.home, b) == Some(At(w))
    ensures HasMap(m, w, b) && b !in m.flight
    ensures forall x: WorkerId | x != w && HasMap(m, x, b) :: MapAt(m, x, b) == map[]
  {
    assert BucketOk(c, m, b);
  }

  /** The key map of k arrives at a worker that still stores the deleted k. */
  ghost predicate OldCopyTakenOver(c: Config, trace: seq<Sys>, acts: seq<SysAction>, i: nat, k: Key)
    requires |trace| == |acts| + 1 && i < |acts|
  {
    && acts[i].TakeOver? && c.bucketOf(k) in Arriving(trace[i].flow, acts[i].src, acts[i].dst)
    && !NoOldCopy(trace[i].store, ModelAt(acts, i), acts[i].dst, k)
  }

  lemma ModelOfStep(c: Config, s: Sys, a: SysAction, s': Sys, model: Model)
    requires ValidConfig(c) && SysOk(c, s, model) && SysStep(c, s, a, s')
    ensures s'.store != s.store ==>
              StoreAction(s, a).Some? && SysModelStep(model, a) == ModelStep(model, StoreAction(s, a).value)
    ensures s'.aborted ==> SysModelStep(model, a) == model
  {
    StoreStep(c, s, a, s');
    if s'.aborted { AbortedModel(c, s, a, s', model); }
  }

  lemma AbortedModel(c: Config, s: Sys, a: SysAction, s': Sys, model: Model)
    requires ValidConfig(c) && SysOk(c, s, model) && SysStep(c, s, a, s') && s'.aborted
    ensures SysModelStep(model, a) == model
  {
    SysStepKeeps(c, s, a, s', model);
    FatalModel(c, s, a, model);
  }

  lemma FatalModel(c: Config, s: Sys, a: SysAction, model: Model)
    requires Fatal(c, s, a, model)
    ensures SysModelStep(model, a) == model
  {
  }

  lemma SysValueStep(c: Config, trace: seq<Sys>, acts: seq<SysAction>, i: nat, k: Key)
    requires IsSysRun(c, trace, acts) && i < |acts| && !OldCopyTakenOver(c, trace, acts, i, k)
    requires ValueOk(c, trace[i].store, Lookup(ModelAt(acts, i), k), k)
    ensures ValueOk(c, trace[i + 1].store, Lookup(ModelAt(acts, i + 1), k), k)
  {
    var s, a, s', model := trace[i], acts[i], trace[i + 1], ModelAt(acts, i);
    SysRunOk(c, trace, acts, i);
    assert StepAt(c, trace, acts, i);
    if a.State? && !s'.aborted {
      ValueStep(c, s.store, a.a, s'.store, model, k);
    } else {
      ModelOfStep(c, s, a, s', model);
      StoreStep(c, s, a, s');
      if s'.store != s.store { ValueStep(c, s.store, StoreAction(s, a).value, s'.store, model, k); }
    }
  }

  lemma {:induction false} SysValueRun(c: Config, trace: seq<Sys>, acts: seq<SysAction>, i: nat, k: Key)
    requires IsSysRun(c, trace, acts) && i < |trace|
    requires forall m: nat | m < i :: !OldCopyTakenOver(c, trace, acts, m, k)
    ensures ValueOk(c, trace[i].store, Lookup(ModelAt(acts, i), k), k)
  {
    if i > 0 {
      SysValueRun(c, trace, acts, i - 1, k);
      SysValueStep(c, trace, acts, i - 1, k);
    }
  }

  /** The keys of the last batch that w has started. */
  function SysAsked(acts: seq<SysAction>, n: nat, w: WorkerId): Option<set<Key>>
    requires n <= |acts|
  {
    if n == 0 then None
    else if acts[n - 1].StartBatch? && acts[n - 1].w == w then Some(acts[n - 1].keys)
    else SysAsked(acts, n - 1, w)
  }

  lemma SysBatchOnStep(c: Config, s: Sys, a: SysAction, s': Sys, w: WorkerId, keys: Option<set<Key>>)
    requires SysStep(c, s, a, s') && BatchOn(SessionOf(s.store.sessions, w), keys)
    requires a.StartBatch? ==> !s'.aborted && Step(c, s.store, Begin(a.w, a.keys), s'.store)
    ensures BatchOn(SessionOf(s'.store.sessions, w), if a.StartBatch? && a.w == w then Some(a.keys) else keys)
  {
    StoreStep(c, s, a, s');
    if s'.store != s.store || a.StartBatch? {
      BatchOnStep(c, s.store, StoreAction(s, a).value, s'.store, w, keys);
      assert a.State? ==> !a.a.Begin?;
    }
  }

  lemma {:induction false} SysBatchOn(c: Config, trace: seq<Sys>, acts: seq<SysAction>, i: nat, w: WorkerId)
    requires IsSysRun(c, trace, acts) && i < |trace|
    ensures BatchOn(SessionOf(trace[i].store.sessions, w), SysAsked(acts, i, w))
  {
    if i > 0 {
      SysBatchOn(c, trace, acts, i - 1, w);
      StartedBatch(c, trace, acts, i - 1);
      assert StepAt(c, trace, acts, i - 1);
      SysBatchOnStep(c, trace[i - 1], acts[i - 1], trace[i], w, SysAsked(acts, i - 1, w));
    }
  }

  lemma StartedBatch(c: Config, trace: seq<Sys>, acts: seq<SysAction>, i: nat)
    requires IsSysRun(c, trace, acts) && i < |acts|
    ensures acts[i].StartBatch? ==>
              !trace[i + 1].aborted && Step(c, trace[i].store, Begin(acts[i].w, acts[i].keys), trace[i + 1].store)
  {
    SysRunOk(c, trace, acts, i);
    assert StepAt(c, trace, acts, i);
    if acts[i].StartBatch? {
      BatchStepProceeds(c, trace[i], acts[i].w, acts[i].keys, trace[i + 1], ModelAt(acts, i));
    }
  }

  lemma SysAnswersAll(c: Config, trace: seq<Sys>, acts: seq<SysAction>, i: nat)
    requires IsSysRun(c, trace, acts) && i < |acts| && acts[i].State? && acts[i].a.Serve?
    ensures SysAsked(acts, i, acts[i].a.w) == Some(acts[i].a.result.Keys)
  {
    SysBatchOn(c, trace, acts, i, acts[i].a.w);
    assert StepAt(c, trace, acts, i);
  }

  /** Refinement for the whole system: a batch is answered for the keys it asked
      for, with the values of one global map. */
  lemma ClusterRefinement(c: Config, trace: seq<Sys>, acts: seq<SysAction>, i: nat, k: Key)
    requires IsSysRun(c, trace, acts) && i < |acts| && acts[i].State? && acts[i].a.Serve?
    requires forall m: nat | m < i :: !OldCopyTakenOver(c, trace, acts, m, k)
    ensures SysAsked(acts, i, acts[i].a.w) == Some(acts[i].a.result.Keys)
    ensures k in acts[i].a.result ==> acts[i].a.result[k] == Lookup(ModelAt(acts, i), k)
  {
    SysAnswersAll(c, trace, acts, i);
    SysRunOk(c, trace, acts, i);
    SysValueRun(c, trace, acts, i, k);
    assert StepAt(c, trace, acts, i);
    ServeValue(c, trace[i].store, ModelAt(acts, i), acts[i].a.w, acts[i].a.result, k);
  }

  /** Everybody the table, or a repartition among the first n steps, has given the
      bucket to. */
  function Owners(table: Table, acts: seq<SysAction>, n: nat, b: Bucket): set<WorkerId>
    requires n <= |acts|
  {
    if n == 0 then if b < |table| then {table[b]} else {}
    else
      Owners(table, acts, n - 1, b)
      + if acts[n - 1].Repartition? && b < |acts[n - 1].next| then {acts[n - 1].next[b]} else {}
  }

  lemma HistoryStep(c: Config, s: Sys, a: SysAction, s': Sys, b: Bucket)
    requires SysStep(c, s, a, s') && b < |s.flow.table|
    ensures History(s', b) == History(s, b) + if a.Repartition? && b < |a.next| then {a.next[b]} else {}
  {
  }

  /** The history of a bucket is exactly who has owned it. */
  lemma {:induction false} HistoryIs(c: Config, trace: seq<Sys>, acts: seq<SysAction>, n: nat, b: Bucket)
    requires IsSysRun(c, trace, acts) && n < |trace| && b < c.numBuckets
    ensures History(trace[n], b) == Owners(trace[0].flow.table, acts, n, b)
  {
    if n > 0 {
      HistoryIs(c, trace, acts, n - 1, b);
      SysRunOk(c, trace, acts, n - 1);
      assert StepAt(c, trace, acts, n - 1);
      HistoryStep(c, trace[n - 1], acts[n - 1], trace[n], b);
    } else {
      assert SysInit(c, trace[0]);
    }
  }

  /** The owner that the lookup table of a worker names for a bucket is in its history. */
  ghost predicate NamesOwner(s: Sys, w: WorkerId, b: Bucket) {
    (w, b) in s.store.maps.table ==> s.store.maps.table[(w, b)].owner in History(s, b)
  }

  lemma NamedByDeploy(c: Config, m: Maps, w: WorkerId, newTable: seq<WorkerId>, v: WorkerId, b: Bucket)
    requires CanDeploy(c, m, w, newTable) && b < c.numBuckets
    ensures var m' := DeployMaps(m, w, newTable);
            if v == w then Lookup(m'.table, (w, b)) ==
                             Some(Entry(newTable[b], if newTable[b] == w then Some(map[]) else None))
            else Lookup(m'.table, (v, b)) == Lookup(m.table, (v, b))
  {
  }

  lemma NamedByMove(c: Config, s: Store, a: Action, s': Store, v: WorkerId, b: Bucket)
    requires Step(c, s, a, s') && (a.Depart? || a.Install?) && (v, b) in s'.maps.table
    ensures (v, b) in s.maps.table
    ensures var was, now := s.maps.table[(v, b)].owner, s'.maps.table[(v, b)].owner;
            now == was || (a.Depart? && b < |a.newTable| && now == a.newTable[b]) || (a.Install? && now == a.w == v
              && Lookup(s.maps.home, b) == Some(Flying(a.src, a.w)))
  {
  }

  lemma NamedStep(c: Config, t: Store, a: Action, t': Store, next: Table, v: WorkerId, b: Bucket)
    requires Step(c, t, a, t') && (v, b) in t'.maps.table && b < c.numBuckets
    requires a.Deploy? || a.Depart? ==> a.newTable == next
    requires a.Install? && Lookup(t.maps.home, b) == Some(Flying(a.src, a.w)) ==> b < |next| && next[b] == a.w
    ensures ((v, b) in t.maps.table && t'.maps.table[(v, b)].owner == t.maps.table[(v, b)].owner)
            || (b < |next| && t'.maps.table[(v, b)].owner == next[b] && MovesMaps(a))
  {
    if !MovesMaps(a) {
      TablesKept(c, t, a, t');
    } else if a.Deploy? {
      NamedByDeploy(c, t.maps, a.w, a.newTable, v, b);
    } else {
      NamedByMove(c, t, a, t', v, b);
    }
  }

  lemma NamedNext(c: Config, s: Sys, a: SysAction, s': Sys, model: Model, v: WorkerId, b: Bucket)
    requires SysOk(c, s, model) && SysStep(c, s, a, s') && b < c.numBuckets && NamesOwner(s, v, b)
    requires History(s, b) <= History(s', b)
    ensures NamesOwner(s', v, b)
  {
    StoreStep(c, s, a, s');
    if s'.store != s.store && (v, b) in s'.store.maps.table {
      var x := StoreAction(s, a).value;
      assert HistoryOk(s, b) && HomeOk(s.flow, b);
      MovesDuring(c, s, a, s', b);
      NamedStep(c, s.store, x, s'.store, s.flow.next, v, b);
    }
  }

  /** Key maps move during a reconfiguration, to the owners it names. */
  lemma MovesDuring(c: Config, s: Sys, a: SysAction, s': Sys, b: Bucket)
    requires FlowOk(s.flow) && SysStep(c, s, a, s') && StoreAction(s, a).Some? && b < |s.flow.table|
    ensures |s.flow.next| == |s.flow.table|
    ensures var x := StoreAction(s, a).value;
            && (MovesMaps(x) && s'.store != s.store ==> s.flow.stage != Idle)
            && (x.Install? && Lookup(s.flow.home, b) == Some(Flying(x.src, x.w)) ==> s.flow.next[b] == x.w)
            && (x.Deploy? || x.Depart? ==> x.newTable == s.flow.next)
  {
    FlowMoves(s.flow, b);
    match a
    case TakeOver(src, dst) => TakeOverDuring(c, s, src, dst, s');
    case HandOver(w) => HandOverDuring(s.flow, w);
    case State(x) => NotDue(s.store, x);
    case _ =>
  }

  lemma NotDue(s: Store, x: Action)
    requires Due(s, x)
    ensures !MovesMaps(x)
  {
  }

  lemma HandOverDuring(f: Flow, w: WorkerId)
    requires FlowOk(f) && CanSendMaps(f, w)
    ensures f.stage != Idle
  {
    assert WorkerOk(f, w);
  }

  lemma FlowMoves(f: Flow, b: Bucket)
    requires FlowOk(f) && b < |f.table|
    ensures |f.next| == |f.table|
    ensures forall src: WorkerId, dst: WorkerId | Lookup(f.home, b) == Some(Flying(src, dst)) :: f.next[b] == dst
  {
    assert HomeOk(f, b);
  }

  lemma TakeOverDuring(c: Config, s: Sys, src: WorkerId, dst: WorkerId, s': Sys)
    requires FlowOk(s.flow) && TakeOverStep(c, s, src, dst, s')
    ensures s'.store != s.store ==> s.flow.stage != Idle
  {
    assert PeerOk(s.flow, src, dst) && WorkerOk(s.flow, src);
  }

  /** A lookup table names for a bucket only workers that have owned it or are to. */
  lemma {:induction false} NamedOwner(c: Config, trace: seq<Sys>, acts: seq<SysAction>, n: nat, v: WorkerId, b: Bucket)
    requires IsSysRun(c, trace, acts) && n < |trace| && b < c.numBuckets
    ensures NamesOwner(trace[n], v, b)
  {
    if n > 0 {
      NamedOwner(c, trace, acts, n - 1, v, b);
      NamedSince(c, trace, acts, n - 1, v, b);
    } else {
      assert SysInit(c, trace[0]);
    }
  }

  lemma NamedSince(c: Config, trace: seq<Sys>, acts: seq<SysAction>, n: nat, v: WorkerId, b: Bucket)
    requires IsSysRun(c, trace, acts) && n < |acts| && b < c.numBuckets && NamesOwner(trace[n], v, b)
    ensures NamesOwner(trace[n + 1], v, b)
  {
    SysRunOk(c, trace, acts, n);
    assert StepAt(c, trace, acts, n);
    HistoryStep(c, trace[n], acts[n], trace[n + 1], b);
    NamedNext(c, trace[n], acts[n], trace[n + 1], ModelAt(acts, n), v, b);
  }

  /** A new task starts with the table of the new partition, and empty key maps for
      its own buckets. */
  lemma NewTaskTable(c: Config, trace: seq<Sys>, acts: seq<SysAction>, n: nat, b: Bucket)
    requires IsSysRun(c, trace, acts) && n < |acts| && acts[n].NewTask? && b < c.numBuckets
    ensures var w, next := acts[n].w, trace[n].flow.next;
            && b < |next|
            && Lookup(trace[n + 1].store.maps.table, (w, b)) ==
                 Some(Entry(next[b], if next[b] == w then Some(map[]) else None))
  {
    SysRunOk(c, trace, acts, n);
    assert StepAt(c, trace, acts, n);
    NewTaskProceeds(c, trace[n], acts[n].w, trace[n + 1]);
    NamedByDeploy(c, trace[n].store.maps, acts[n].w, trace[n].flow.next, acts[n].w, b);
  }

  /** The owner history over-approximates where keys are. */
  lemma OwnerHistory(c: Config, trace: seq<Sys>, acts: seq<SysAction>, i: nat, k: Key, x: WorkerId)
    requires IsSysRun(c, trace, acts) && i < |trace|
    requires Location(c, trace[i].store.maps, k) == Some(x)
    ensures x in History(trace[i], c.bucketOf(k))
  {
    SysRunOk(c, trace, acts, i);
    assert LocatedInHistory(c, trace[i], k);
  }

  /** When the eventual migration messages are sent, each key that is located at
      a removed worker is in the message to the worker that has its key map. */
  lemma MessagesReach(c: Config, trace: seq<Sys>, acts: seq<SysAction>, i: nat, k: Key, x: WorkerId)
    requires IsSysRun(c, trace, acts) && i < |trace|
    requires trace[i].flow.stage == Draining && x in Removed(trace[i].flow)
    requires Location(c, trace[i].store.maps, k) == Some(x)
    ensures var s, b := trace[i], c.bucketOf(k);
            exists w: WorkerId ::
              && HomeOf(c, s.store.maps, k) == Some(At(w)) && w in s.flow.updated && Affects(s, w, x, b)
              && forall affected :: IsMessage(s, w, affected) ==> x in affected && b in affected[x]
  {
    SysRunOk(c, trace, acts, i);
    var s, b := trace[i], c.bucketOf(k);
    assert LocatedInHistory(c, s, k);
    OwnerAffected(c, s, x, b);
    var w := s.flow.next[b];
    assert Affects(s, w, x, b);
  }

  lemma GoneStays(c: Config, s: Sys, a: SysAction, s': Sys)
    requires SysStep(c, s, a, s')
    ensures s.gone <= s'.gone
  {
  }

  lemma {:induction false} GoneSince(c: Config, trace: seq<Sys>, acts: seq<SysAction>, i: nat, j: nat)
    requires IsSysRun(c, trace, acts) && i <= j < |trace|
    ensures trace[i].gone <= trace[j].gone
  {
    if i < j {
      GoneSince(c, trace, acts, i, j - 1);
      assert StepAt(c, trace, acts, j - 1);
      GoneStays(c, trace[j - 1], acts[j - 1], trace[j]);
    }
  }

  lemma NowGone(c: Config, trace: seq<Sys>, acts: seq<SysAction>, i: nat)
    requires IsSysRun(c, trace, acts) && i < |acts| && acts[i].Complete?
    ensures Removed(trace[i].flow) <= trace[i + 1].gone
  {
    assert StepAt(c, trace, acts, i);
  }

  /** A worker may be stopped when the reconfiguration that removes it is
      complete: its backend is never read again, and once the owner's wait group
      is zero no key is listed there. This is so in eventual mode; that it owns no
      bucket holds in both. */
  lemma RemovedNeverRead(c: Config, trace: seq<Sys>, acts: seq<SysAction>, i: nat, j: nat, x: WorkerId)
    requires IsSysRun(c, trace, acts) && i < j < |acts| && acts[i].Complete? && x in Removed(trace[i].flow)
    ensures c.eventual && acts[j].State? && acts[j].a.Fetch? ==>
              acts[j].a.k in Pending(trace[j].store.sessions, acts[j].a.w)
              && Pending(trace[j].store.sessions, acts[j].a.w)[acts[j].a.k].src != x
    ensures c.eventual ==> forall k: Key, w: WorkerId ::
              HomeOf(c, trace[j].store.maps, k) == Some(At(w)) && Drained(trace[j].store, w) ==>
                Location(c, trace[j].store.maps, k) != Some(x)
    ensures forall b: Bucket | b < c.numBuckets :: Lookup(trace[j].store.maps.home, b) != Some(At(x))
  {
    SysRunOk(c, trace, acts, j);
    NowGone(c, trace, acts, i);
    GoneSince(c, trace, acts, i + 1, j);
    var s := trace[j];
    assert c.eventual ==> Retired(c, s.store, x);
    assert StepAt(c, trace, acts, j);
    forall k: Key, w: WorkerId | c.eventual && HomeOf(c, s.store.maps, k) == Some(At(w)) && Drained(s.store, w)
      ensures Location(c, s.store.maps, k) != Some(x)
    {
      assert Location(c, s.store.maps, k) == Some(x) ==> Departing(c, s.store, x, k);
    }
    forall b: Bucket | b < c.numBuckets ensures Lookup(s.store.maps.home, b) != Some(At(x)) {
      GoneOwnsNothing(c, s, x, b);
    }
    FetchesUnflushed(c, s, acts[j], trace[j + 1], ModelAt(acts, j));
  }

  lemma FetchesUnflushed(c: Config, s: Sys, a: SysAction, s': Sys, model: Model)
    requires SysStep(c, s, a, s') && SysOk(c, s, model)
    ensures a.State? && a.a.Fetch? ==>
              a.a.k in Pending(s.store.sessions, a.a.w) && !Pending(s.store.sessions, a.a.w)[a.a.k].flushed
  {
    if a.State? && a.a.Fetch? {
      KeyStructure(c, s.store, model, a.a.k, a.a.w);
    }
  }

  // -------------------------------------------------- runs without deletes

  ghost predicate NoDeletes(acts: seq<SysAction>) {
    forall i | 0 <= i < |acts| && acts[i].State? && acts[i].a.Write? :: !acts[i].a.op.Drop?
  }

  lemma OnlyLiveSysStep(c: Config, s: Sys, a: SysAction, s': Sys, model: Model)
    requires ValidConfig(c) && SysOk(c, s, model) && SysStep(c, s, a, s') && OnlyLive(s.store, model)
    requires a.State? && a.a.Write? ==> !a.a.op.Drop?
    ensures OnlyLive(s'.store, SysModelStep(model, a))
  {
    ModelOfStep(c, s, a, s', model);
    StoreStep(c, s, a, s');
    if s'.store != s.store { OnlyLiveStep(c, s.store, StoreAction(s, a).value, s'.store, model); }
  }

  lemma {:induction false} NoDeletesOk(c: Config, trace: seq<Sys>, acts: seq<SysAction>, i: nat)
    requires IsSysRun(c, trace, acts) && NoDeletes(acts) && i < |trace|
    ensures OnlyLive(trace[i].store, ModelAt(acts, i))
  {
    if i > 0 {
      NoDeletesOk(c, trace, acts, i - 1);
      SysRunOk(c, trace, acts, i - 1);
      assert StepAt(c, trace, acts, i - 1);
      OnlyLiveSysStep(c, trace[i - 1], acts[i - 1], trace[i], ModelAt(acts, i - 1));
    }
  }

  /** Without deletes no old copy ever gets its bucket back, so refinement holds
      as it is. */
  lemma NoDeletesClean(c: Config, trace: seq<Sys>, acts: seq<SysAction>, i: nat, k: Key)
    requires IsSysRun(c, trace, acts) && NoDeletes(acts) && i < |acts|
    ensures !OldCopyTakenOver(c, trace, acts, i, k)
  {
    NoDeletesOk(c, trace, acts, i);
  }
}

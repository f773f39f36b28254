/**
 Properties of every run of the distributed keyed state: it refines one global
 map, it keeps a single copy of each key map entry, and background routines
 never undo a write.
 */
module StoreRefinement {
  import opened Types
  import opened KeyedStore
  import opened StoreInvariant
  import opened StoreValues

  // ----------------------------------------------------------------- runs

  /** Initial deployment: every worker has the whole table, and empty key maps
      for its own buckets. */
  ghost predicate Init(c: Config, s: Store) {
    && s.backend == map[] && s.sessions == map[] && s.eventual == map[] && s.maps.flight == map[]
    && (forall b: Bucket | b < c.numBuckets ::
          b in s.maps.home && s.maps.home[b].At? && HasMap(s.maps, s.maps.home[b].w, b))
    && (forall p | p in s.maps.table ::
          && p.1 < c.numBuckets
          && s.maps.table[p] == Entry(s.maps.home[p.1].w, if s.maps.home[p.1] == At(p.0) then Some(map[]) else None))
  }

  ghost predicate IsRun(c: Config, trace: seq<Store>, acts: seq<Action>) {
    && |trace| == |acts| + 1
    && ValidConfig(c)
    && Init(c, trace[0])
    && forall i: nat | i < |acts| :: RunStep(c, trace, acts, i)
  }

  ghost predicate RunStep(c: Config, trace: seq<Store>, acts: seq<Action>, i: nat)
    requires |trace| == |acts| + 1 && i < |acts|
  {
    Step(c, trace[i], acts[i], trace[i + 1])
  }

  /** The global map after a sequence of actions. */
  function ModelAfter(acts: seq<Action>): Model {
    if acts == [] then map[] else ModelStep(ModelAfter(acts[..|acts| - 1]), acts[|acts| - 1])
  }

  lemma ModelAfterStep(acts: seq<Action>, i: nat)
    requires i < |acts|
    ensures ModelAfter(acts[..i + 1]) == ModelStep(ModelAfter(acts[..i]), acts[i])
  {
    assert acts[..i + 1][..i] == acts[..i];
  }

  /** A key map with k arrives at a worker that still stores the deleted k. */
  ghost predicate OldCopyArrives(c: Config, trace: seq<Store>, acts: seq<Action>, i: nat, k: Key)
    requires |trace| == |acts| + 1 && i < |acts|
  {
    && acts[i].Install? && c.bucketOf(k) in acts[i].buckets
    && !NoOldCopy(trace[i], ModelAfter(acts[..i]), acts[i].w, k)
  }

  lemma InitOk(c: Config, s: Store)
    requires ValidConfig(c) && Init(c, s)
    ensures StoreOk(c, s, map[])
  {
    forall b: Bucket | b < c.numBuckets ensures BucketOk(c, s.maps, b) {}
    forall k: Key ensures KeyOk(c, s, false, k) {
      assert c.bucketOf(k) < c.numBuckets;
      forall w: WorkerId ensures KeyOkAt(c, s, k, w) {}
    }
  }

  lemma StepKeeps(c: Config, s: Store, a: Action, s': Store, model: Model)
    requires ValidConfig(c) && StoreOk(c, s, model) && Step(c, s, a, s')
    ensures StoreOk(c, s', ModelStep(model, a))
  {
    match a
    case Begin(w, keys) => BeginKeeps(c, s, model, w, keys);
    case ReadLocal(w, k) => ReadLocalKeeps(c, s, model, w, k);
    case Fetch(w, k) => FetchKeeps(c, s, model, w, k);
    case Flush(w, k) => FlushKeeps(c, s, model, w, k);
    case Update(w, k) => UpdateKeeps(c, s, model, w, k);
    case Serve(w, r) => ServeKeeps(c, s, model, w, r);
    case Write(w, k, op) => WriteKeeps(c, s, model, w, k, op);
    case End(w) => EndKeeps(c, s, model, w);
    case StartScan(w, x, keys, fin, all) => StartScanKeeps(c, s, model, w, x, keys, fin, all);
    case EndScan(w, x) => EndScanKeeps(c, s, model, w, x);
    case SetMeta(w, aff) => SetMetaKeeps(c, s, model, w, aff);
    case Depart(w, t) => DepartKeeps(c, s, model, w, t);
    case Install(w, src, bs) => InstallKeeps(c, s, model, w, src, bs);
    case Deploy(w, t) => DeployKeeps(c, s, model, w, t);
  }

  lemma {:induction false} RunKeeps(c: Config, trace: seq<Store>, acts: seq<Action>, i: nat)
    requires IsRun(c, trace, acts) && i < |trace|
    ensures StoreOk(c, trace[i], ModelAfter(acts[..i]))
  {
    if i == 0 {
      InitOk(c, trace[0]);
    } else {
      RunKeeps(c, trace, acts, i - 1);
      ModelAfterStep(acts, i - 1);
      assert RunStep(c, trace, acts, i - 1);
      StepKeeps(c, trace[i - 1], acts[i - 1], trace[i], ModelAfter(acts[..i - 1]));
    }
  }

  lemma {:induction false} ValueRun(c: Config, trace: seq<Store>, acts: seq<Action>, i: nat, k: Key)
    requires IsRun(c, trace, acts) && i < |trace|
    requires forall m: nat | m < i :: !OldCopyArrives(c, trace, acts, m, k)
    ensures ValueOk(c, trace[i], Lookup(ModelAfter(acts[..i]), k), k)
  {
    if i > 0 {
      ValueRun(c, trace, acts, i - 1, k);
      RunKeeps(c, trace, acts, i - 1);
      ModelAfterStep(acts, i - 1);
      assert RunStep(c, trace, acts, i - 1) && !OldCopyArrives(c, trace, acts, i - 1, k);
      ValueStep(c, trace[i - 1], acts[i - 1], trace[i], ModelAfter(acts[..i - 1]), k);
    }
  }

  // ------------------------------------------------------------ whole answers

  /** The keys of the last batch that w has begun. */
  function Asked(acts: seq<Action>, w: WorkerId): Option<set<Key>> {
    if acts == [] then None
    else
      var a := acts[|acts| - 1];
      if a.Begin? && a.w == w then Some(a.keys) else Asked(acts[..|acts| - 1], w)
  }

  /** The open batch of w is on exactly these keys. */
  ghost predicate BatchOn(x: Session, keys: Option<set<Key>>) {
    x.batch.Some? ==> keys == Some(x.batch.value.from.Keys)
  }

  lemma BatchOnStep(c: Config, s: Store, a: Action, s': Store, w: WorkerId, keys: Option<set<Key>>)
    requires Step(c, s, a, s') && BatchOn(SessionOf(s.sessions, w), keys)
    ensures BatchOn(SessionOf(s'.sessions, w), if a.Begin? && a.w == w then Some(a.keys) else keys)
  {
    if a.Begin? && a.w == w { assert SessionOf(s'.sessions, w).batch.value.from.Keys == a.keys; }
  }

  lemma {:induction false} BatchOnAsked(c: Config, trace: seq<Store>, acts: seq<Action>, i: nat, w: WorkerId)
    requires IsRun(c, trace, acts) && i < |trace|
    ensures BatchOn(SessionOf(trace[i].sessions, w), Asked(acts[..i], w))
  {
    if i > 0 {
      BatchOnAsked(c, trace, acts, i - 1, w);
      assert acts[..i][..i - 1] == acts[..i - 1];
      assert RunStep(c, trace, acts, i - 1);
      BatchOnStep(c, trace[i - 1], acts[i - 1], trace[i], w, Asked(acts[..i - 1], w));
    }
  }

  /** A batch is answered for exactly the keys it asked for. */
  lemma AnswersAll(c: Config, trace: seq<Store>, acts: seq<Action>, i: nat)
    requires IsRun(c, trace, acts) && i < |acts| && acts[i].Serve?
    ensures Asked(acts[..i], acts[i].w) == Some(acts[i].result.Keys)
  {
    BatchOnAsked(c, trace, acts, i, acts[i].w);
    assert RunStep(c, trace, acts, i);
  }

  /** No batch is stuck: each key that is not there yet can be read or fetched now,
      and with all of them there the batch can be answered. */
  lemma BatchProgress(c: Config, s: Store, model: Model, w: WorkerId, k: Key)
    requires StoreOk(c, s, model) && SessionOf(s.sessions, w).batch.Some?
    ensures var x := SessionOf(s.sessions, w).batch.value;
            && (k in x.from && k !in x.got ==> CanReadLocal(s, w, k) || CanFetch(s, w, k))
            && (k in x.got ==> k in x.from)
            && (x.got.Keys == x.from.Keys && !x.served ==> CanServe(s, w, x.got))
  {
    KeyStructure(c, s, model, k, w);
  }

  /** Nor is a key on its way: it can be fetched, flushed or relocated now. */
  lemma RoutineProgress(c: Config, s: Store, model: Model, w: WorkerId, k: Key)
    requires ValidConfig(c) && StoreOk(c, s, model) && k in Pending(s.sessions, w)
    ensures CanFetch(s, w, k) || CanFlush(s, w, k) || CanUpdate(c, s, w, k)
  {
    KeyStructure(c, s, model, k, w);
    assert BucketOk(c, s.maps, c.bucketOf(k));
  }

  // --------------------------------------------------------------- refinement

  /** Refinement: whatever the interleaving and however often buckets moved, a
      batch is answered for the keys it asked for, with the values of the one
      global map. */
  lemma Refinement(c: Config, trace: seq<Store>, acts: seq<Action>, i: nat, k: Key)
    requires IsRun(c, trace, acts) && i < |acts| && acts[i].Serve?
    requires forall m: nat | m < i :: !OldCopyArrives(c, trace, acts, m, k)
    ensures Asked(acts[..i], acts[i].w) == Some(acts[i].result.Keys)
    ensures k in acts[i].result ==> acts[i].result[k] == Lookup(ModelAfter(acts[..i]), k)
  {
    AnswersAll(c, trace, acts, i);
    RunKeeps(c, trace, acts, i);
    ValueRun(c, trace, acts, i, k);
    assert RunStep(c, trace, acts, i);
    ServeValue(c, trace[i], ModelAfter(acts[..i]), acts[i].w, acts[i].result, k);
  }

  /** What the writes of k make of its value, from the last one backwards. */
  function LastWritten(acts: seq<Action>, k: Key): Option<Value> {
    if acts == [] then None
    else
      var init, a := acts[..|acts| - 1], acts[|acts| - 1];
      if !a.Write? || a.k != k then LastWritten(init, k)
      else match a.op
        case Put(v) => Some(v)
        case Drop => None
        case Append(v) => Some((if LastWritten(init, k).Some? then LastWritten(init, k).value else []) + v)
  }

  lemma {:induction false} ModelIsLastWritten(acts: seq<Action>, k: Key)
    ensures Lookup(ModelAfter(acts), k) == LastWritten(acts, k)
  {
    if acts != [] { ModelIsLastWritten(acts[..|acts| - 1], k); }
  }

  /** A read gets what was last written, by whichever worker. */
  lemma ReadsLastWrite(c: Config, trace: seq<Store>, acts: seq<Action>, i: nat, k: Key)
    requires IsRun(c, trace, acts) && i < |acts| && acts[i].Serve? && k in acts[i].result
    requires forall m: nat | m < i :: !OldCopyArrives(c, trace, acts, m, k)
    ensures acts[i].result[k] == LastWritten(acts[..i], k)
  {
    Refinement(c, trace, acts, i, k);
    ModelIsLastWritten(acts[..i], k);
  }

  /** Once the wait group of the owner is zero, the key map lists the live keys,
      and each is stored with its current value where it is listed. */
  lemma LocatedWhenDrained(c: Config, s: Store, model: Model, w: WorkerId, k: Key)
    requires StoreOk(c, s, model) && HomeOf(c, s.maps, k) == Some(At(w)) && Drained(s, w)
    ensures k in model <==> k in MapAt(s.maps, w, c.bucketOf(k))
    ensures k in model && ValueOk(c, s, Lookup(model, k), k) ==>
              Lookup(s.backend, (MapAt(s.maps, w, c.bucketOf(k))[k], k)) == Some(model[k])
  {
    KeyStructure(c, s, model, k, w);
  }

  // -------------------------------------------------- runs without deletes

  ghost predicate DeleteFree(acts: seq<Action>) {
    forall i | 0 <= i < |acts| && acts[i].Write? :: !acts[i].op.Drop?
  }

  ghost predicate OnlyLive(s: Store, model: Model) {
    forall p | p in s.backend :: p.1 in model
  }

  lemma BackendSame(c: Config, s: Store, a: Action, s': Store)
    requires Step(c, s, a, s') && !a.Flush? && !a.Write?
    ensures s'.backend == s.backend
  {
  }

  lemma OnlyLiveStep(c: Config, s: Store, a: Action, s': Store, model: Model)
    requires StoreOk(c, s, model) && Step(c, s, a, s') && OnlyLive(s, model)
    requires a.Write? ==> !a.op.Drop?
    ensures OnlyLive(s', ModelStep(model, a))
  {
    if a.Flush? {
      KeyStructure(c, s, model, a.k, a.w);
      assert s'.backend.Keys == s.backend.Keys + {(a.w, a.k)};
    } else if !a.Write? {
      BackendSame(c, s, a, s');
    }
  }

  lemma {:induction false} DeleteFreeKeeps(c: Config, trace: seq<Store>, acts: seq<Action>, i: nat)
    requires IsRun(c, trace, acts) && DeleteFree(acts) && i < |trace|
    ensures OnlyLive(trace[i], ModelAfter(acts[..i]))
  {
    if i > 0 {
      DeleteFreeKeeps(c, trace, acts, i - 1);
      RunKeeps(c, trace, acts, i - 1);
      ModelAfterStep(acts, i - 1);
      assert RunStep(c, trace, acts, i - 1);
      OnlyLiveStep(c, trace[i - 1], acts[i - 1], trace[i], ModelAfter(acts[..i - 1]));
    }
  }

  /** What a global map answers. */
  function Answer(model: Model, keys: set<Key>): map<Key, Option<Value>> {
    map k | k in keys :: Lookup(model, k)
  }

  /** Without deletes there is nothing to assume: the whole answer is that of the
      global map to the keys of the batch. */
  lemma DeleteFreeRefinement(c: Config, trace: seq<Store>, acts: seq<Action>, i: nat)
    requires IsRun(c, trace, acts) && DeleteFree(acts) && i < |acts| && acts[i].Serve?
    ensures var keys := Asked(acts[..i], acts[i].w);
            keys.Some? && acts[i].result == Answer(ModelAfter(acts[..i]), keys.value)
  {
    AnswersAll(c, trace, acts, i);
    forall k: Key | k in acts[i].result ensures acts[i].result[k] == Lookup(ModelAfter(acts[..i]), k) {
      forall m: nat | m < i ensures !OldCopyArrives(c, trace, acts, m, k) {
        DeleteFreeKeeps(c, trace, acts, m);
      }
      Refinement(c, trace, acts, i, k);
    }
  }

  // --------------------------------------------------------- stale copies

  /** The first read of a deleted key after its bucket arrived at w: it finds
      the key gone exactly when w has no old copy. */
  lemma StaleRead(c: Config, s: Store, model: Model, w: WorkerId, src: WorkerId, buckets: set<Bucket>, k: Key)
    requires ValidConfig(c) && StoreOk(c, s, model) && CanInstall(s.maps, w, src, buckets)
    requires SessionOf(s.sessions, w) == IDLE && c.bucketOf(k) in buckets && k !in model
    ensures var s1 := DoInstall(s, w, src, buckets);
            CanBegin(c, s1, w, {k}) &&
            var s2 := DoBegin(c, s1, w, {k});
            CanReadLocal(s2, w, k) &&
            var s3 := DoReadLocal(s2, w, k);
            (CanServe(s3, w, map[k := Lookup(model, k)]) <==> (w, k) !in s.backend)
  {
    var s1 := DoInstall(s, w, src, buckets);
    assert KeyOk(c, s, k in model, k);
    InstallBucket(c, s.maps, w, src, buckets, c.bucketOf(k)) by { assert BucketOk(c, s.maps, c.bucketOf(k)); }
    ReadsOwn(c, s1, w, k);
  }

  /** A batch of one unknown key reads the backend of the owner. */
  lemma ReadsOwn(c: Config, s: Store, w: WorkerId, k: Key)
    requires SessionOf(s.sessions, w) == IDLE && Lookup(s.maps.home, c.bucketOf(k)) == Some(At(w))
    requires HasMap(s.maps, w, c.bucketOf(k)) && k !in MapAt(s.maps, w, c.bucketOf(k))
    requires s.maps.table[(w, c.bucketOf(k))].owner == w
    ensures CanBegin(c, s, w, {k}) &&
            var s2 := DoBegin(c, s, w, {k});
            CanReadLocal(s2, w, k) &&
            var s3 := DoReadLocal(s2, w, k);
            forall v: Option<Value> :: CanServe(s3, w, map[k := v]) <==> v == Lookup(s.backend, (w, k))
  {
    var s2 := DoBegin(c, s, w, {k});
    assert SessionOf(s2.sessions, w).batch.value.from == map[k := w];
    var s3 := DoReadLocal(s2, w, k);
    var got := SessionOf(s3.sessions, w).batch.value.got;
    assert got == map[k := Lookup(s.backend, (w, k))];
    forall v: Option<Value> ensures CanServe(s3, w, map[k := v]) <==> v == Lookup(s.backend, (w, k)) {
      assert map[k := v][k] == v;
    }
  }

  // ---------------------------------------------------------- fatal exits

  /** UpdateKey finds every key it is asked to relocate. */
  lemma UpdateNeverAborts(c: Config, s: Store, model: Model, w: WorkerId, k: Key)
    requires ValidConfig(c) && StoreOk(c, s, model) && UpdateDue(s, w, k)
    ensures UpdateSafe(c, s, w, k)
  {
    KeyStructure(c, s, model, k, w);
    assert BucketOk(c, s.maps, c.bucketOf(k));
  }

  /** Of the writes of a batch only the delete of a key that is not live aborts. */
  lemma WriteExact(c: Config, s: Store, model: Model, w: WorkerId, k: Key, op: Op)
    requires ValidConfig(c) && StoreOk(c, s, model) && WriteDue(s, w, k)
    ensures WriteSafe(c, s, w, k, op) <==> (op.Drop? ==> k in model)
  {
    KeyStructure(c, s, model, k, w);
    assert BucketOk(c, s.maps, c.bucketOf(k));
  }

  /** A sender keeps the store consistent exactly when it leaves with no routine
      of a leaving key outstanding. */
  lemma DepartExact(c: Config, s: Store, model: Model, w: WorkerId, newTable: seq<WorkerId>)
    requires ValidConfig(c) && StoreOk(c, s, model) && CanSend(c, s, w, newTable)
    ensures StoreOk(c, DoDepart(c, s, w, newTable), model) <==> RoutinesDone(c, s, w, newTable)
  {
    if RoutinesDone(c, s, w, newTable) {
      DepartKeeps(c, s, model, w, newTable);
    } else {
      var k: Key :| k in Pending(s.sessions, w) && Moves(s.maps, w, newTable, c.bucketOf(k));
      LeavingMap(c, s.maps, w, newTable, c.bucketOf(k));
      var s' := DoDepart(c, s, w, newTable);
      assert KeyIn(SessionOf(s'.sessions, w), k).mig.Some?;
      assert !KeyOkAt(c, s', k, w);
      assert !KeyOk(c, s', k in model, k);
    }
  }

  lemma LeavingMap(c: Config, m: Maps, w: WorkerId, newTable: seq<WorkerId>, b: Bucket)
    requires b < c.numBuckets && Moves(m, w, newTable, b)
    ensures !HasMap(DepartMaps(c, m, w, newTable), w, b)
    ensures Lookup(DepartMaps(c, m, w, newTable).home, b) == Some(Flying(w, newTable[b]))
  {
    assert b in Leaving(c, m, w, newTable);
  }

  /** Otherwise a relocation that is still outstanding aborts afterwards. */
  lemma DepartedUpdateAborts(c: Config, s: Store, w: WorkerId, newTable: seq<WorkerId>, k: Key)
    requires ValidConfig(c) && CanSend(c, s, w, newTable) && Moves(s.maps, w, newTable, c.bucketOf(k))
    ensures !UpdateSafe(c, DoDepart(c, s, w, newTable), w, k)
    ensures UpdateDue(DoDepart(c, s, w, newTable), w, k) <==> UpdateDue(s, w, k)
  {
    LeavingMap(c, s.maps, w, newTable, c.bucketOf(k));
  }

  /** The entry that the new owner receives of a key whose flush is outstanding. */
  lemma DepartedEntry(c: Config, s: Store, model: Model, w: WorkerId, newTable: seq<WorkerId>, k: Key)
    requires ValidConfig(c) && StoreOk(c, s, model) && CanSend(c, s, w, newTable)
    requires Moves(s.maps, w, newTable, c.bucketOf(k))
    requires k in Pending(s.sessions, w) && Pending(s.sessions, w)[k].updated
    ensures var m := DepartMaps(c, s.maps, w, newTable);
            c.bucketOf(k) in m.flight && Lookup(m.flight[c.bucketOf(k)], k) == Some(w)
    ensures k in model && !Pending(s.sessions, w)[k].flushed
  {
    KeyStructure(c, s, model, k, w);
    assert c.bucketOf(k) in Leaving(c, s.maps, w, newTable);
  }

  /** A batch on a key that is listed at another worker reads what is stored there. */
  lemma ReadsRemote(c: Config, s: Store, w: WorkerId, src: WorkerId, k: Key)
    requires ValidConfig(c) && CanBegin(c, s, w, {k}) && GetWorkerID(s.maps, w, c.bucketOf(k), k) == src != w
    ensures var s1 := DoBegin(c, s, w, {k});
            && CanFetch(s1, w, k)
            && forall v: Value :: CanServe(DoFetch(s1, w, k), w, map[k := Some(v)]) <==> v == Fetched(s, src, k)
  {
    var s1 := DoBegin(c, s, w, {k});
    var x := SessionOf(s1.sessions, w);
    assert x.batch.value.from == map[k := src] && x.pending[k] == Migration(src, true, None, false, false);
    var got := SessionOf(DoFetch(s1, w, k).sessions, w).batch.value.got;
    assert got == map[k := Some(Fetched(s, src, k))];
    forall v: Value ensures map[k := Some(v)] == got <==> v == Fetched(s, src, k) {
      assert map[k := Some(v)][k] == Some(v);
    }
  }

  /** The new owner takes the key map all the same. */
  lemma DepartedInstalls(c: Config, s: Store, model: Model, w: WorkerId, newTable: seq<WorkerId>, b: Bucket)
    requires StoreOk(c, s, model) && CanSend(c, s, w, newTable) && Moves(s.maps, w, newTable, b) && b < c.numBuckets
    ensures CanInstall(DepartMaps(c, s.maps, w, newTable), newTable[b], w, {b})
  {
    LeavingMap(c, s.maps, w, newTable, b);
    assert BucketOk(c, s.maps, b);
  }

  lemma ArrivedEntry(c: Config, m: Maps, w: WorkerId, src: WorkerId, buckets: set<Bucket>, k: Key)
    requires CanInstall(m, w, src, buckets) && c.bucketOf(k) in buckets
    requires Lookup(m.flight[c.bucketOf(k)], k) == Some(src)
    ensures var m' := InstallMaps(m, w, src, buckets);
            && HasMap(m', w, c.bucketOf(k)) && Lookup(m'.home, c.bucketOf(k)) == Some(At(w))
            && GetWorkerID(m', w, c.bucketOf(k), k) == src
  {
  }

  lemma ArrivedRead(c: Config, s: Store, w: WorkerId, src: WorkerId, buckets: set<Bucket>, k: Key)
    requires ValidConfig(c) && CanInstall(s.maps, w, src, buckets) && SessionOf(s.sessions, w) == IDLE && src != w
    requires c.bucketOf(k) in buckets && Lookup(s.maps.flight[c.bucketOf(k)], k) == Some(src)
    ensures var s1 := DoInstall(s, w, src, buckets);
            CanBegin(c, s1, w, {k}) &&
            var s2 := DoBegin(c, s1, w, {k});
            CanFetch(s2, w, k) &&
            forall v: Value :: CanServe(DoFetch(s2, w, k), w, map[k := Some(v)]) <==> v == Fetched(s, src, k)
  {
    ArrivedEntry(c, s.maps, w, src, buckets, k);
    ReadsRemote(c, DoInstall(s, w, src, buckets), w, src, k);
  }

  /** And while a flush is still outstanding, the new owner reads the key at a
      worker that does not store it yet: it gets what that worker happens to have
      from before, and an empty value if it has nothing. */
  lemma DepartedFlushRead(c: Config, s: Store, model: Model, w: WorkerId, newTable: seq<WorkerId>,
                          buckets: set<Bucket>, k: Key)
    requires ValidConfig(c) && StoreOk(c, s, model) && CanSend(c, s, w, newTable)
    requires Moves(s.maps, w, newTable, c.bucketOf(k)) && c.bucketOf(k) in buckets
    requires k in Pending(s.sessions, w) && Pending(s.sessions, w)[k].updated
    requires CanInstall(DoDepart(c, s, w, newTable).maps, newTable[c.bucketOf(k)], w, buckets)
    requires SessionOf(s.sessions, newTable[c.bucketOf(k)]) == IDLE
    ensures k in model
    ensures var dst := newTable[c.bucketOf(k)];
            var s1 := DoInstall(DoDepart(c, s, w, newTable), dst, w, buckets);
            CanBegin(c, s1, dst, {k}) &&
            var s2 := DoBegin(c, s1, dst, {k});
            CanFetch(s2, dst, k) &&
            forall v: Value :: CanServe(DoFetch(s2, dst, k), dst, map[k := Some(v)]) <==> v == Fetched(s, w, k)
  {
    var dst := newTable[c.bucketOf(k)];
    var s0 := DoDepart(c, s, w, newTable);
    DepartedEntry(c, s, model, w, newTable, k);
    ArrivedRead(c, s0, dst, w, buckets, k);
  }

  /** A key grouped under another worker is listed in the key map, and a key of
      an unknown location is local. */
  lemma GroupedRemoteIsListed(c: Config, s: Store, model: Model, w: WorkerId, k: Key)
    requires ValidConfig(c) && StoreOk(c, s, model) && HasMap(s.maps, w, c.bucketOf(k))
    ensures GetWorkerID(s.maps, w, c.bucketOf(k), k) != w ==> k in MapAt(s.maps, w, c.bucketOf(k)) && k in model
    ensures k !in model ==> GetWorkerID(s.maps, w, c.bucketOf(k), k) == w
  {
    assert KeyOk(c, s, k in model, k);
    assert BucketOk(c, s.maps, c.bucketOf(k));
  }

  /** The receiver of a key map never has entries of its own for the bucket. */
  lemma InstallNeverAborts(c: Config, s: Store, model: Model, w: WorkerId, src: WorkerId, buckets: set<Bucket>)
    requires StoreOk(c, s, model)
    requires forall b | b in buckets :: b < c.numBuckets && Lookup(s.maps.home, b) == Some(Flying(src, w))
    ensures CanInstall(s.maps, w, src, buckets)
  {
    forall b | b in buckets ensures b in s.maps.flight && (w, b) in s.maps.table && MapAt(s.maps, w, b) == map[] {
      assert BucketOk(c, s.maps, b);
    }
  }

  ghost predicate ListedAt(c: Config, m: Maps, w: WorkerId, k: Key) {
    k in MapAt(m, w, c.bucketOf(k))
  }

  ghost predicate ListedInFlight(c: Config, m: Maps, k: Key) {
    c.bucketOf(k) in m.flight && k in m.flight[c.bucketOf(k)]
  }

  /** Across all workers and all messages, a key has an entry iff it is live,
      and then it has exactly one. */
  lemma SingleCopy(c: Config, s: Store, model: Model, k: Key)
    requires ValidConfig(c) && StoreOk(c, s, model)
    ensures k in model <==> ListedInFlight(c, s.maps, k) || exists w: WorkerId :: ListedAt(c, s.maps, w, k)
    ensures forall w: WorkerId | ListedAt(c, s.maps, w, k) :: !ListedInFlight(c, s.maps, k)
    ensures forall w1: WorkerId, w2: WorkerId | ListedAt(c, s.maps, w1, k) && ListedAt(c, s.maps, w2, k) :: w1 == w2
    ensures forall w: WorkerId | (w, c.bucketOf(k)) in s.maps.table ::
              HasMap(s.maps, w, c.bucketOf(k)) <==> s.maps.table[(w, c.bucketOf(k))].owner == w
  {
    assert KeyOk(c, s, k in model, k);
    assert BucketOk(c, s.maps, c.bucketOf(k));
    match s.maps.home[c.bucketOf(k)]
    case At(w) => assert ListedAt(c, s.maps, w, k) <==> k in model;
    case Flying(_, _) =>
  }

  // ------------------------------------------------------- no lost update

  ghost predicate Starts(a: Action, w: WorkerId) {
    a.Begin? && a.w == w
  }

  lemma StaysDrained(c: Config, s: Store, a: Action, s': Store, w: WorkerId)
    requires Step(c, s, a, s') && Drained(s, w) && !Starts(a, w)
    ensures Drained(s', w)
    ensures a.Flush? || a.Update? || a.Fetch? || a.StartScan? ==> a.w != w
  {
  }

  /** Steps after which the stored value or the entry of k at w may differ. */
  ghost predicate Touches(a: Action, w: WorkerId, k: Key) {
    Starts(a, w) || (a.Write? && a.w == w && a.k == k) || ((a.Depart? || a.Install?) && a.w == w)
  }

  /** What w stores of k, and where its key map says k is. */
  ghost predicate Kept(c: Config, s: Store, s': Store, w: WorkerId, k: Key) {
    && Lookup(s'.backend, (w, k)) == Lookup(s.backend, (w, k))
    && Lookup(MapAt(s'.maps, w, c.bucketOf(k)), k) == Lookup(MapAt(s.maps, w, c.bucketOf(k)), k)
  }

  lemma KeptByRoutine(c: Config, s: Store, a: Action, s': Store, w: WorkerId, k: Key)
    requires Step(c, s, a, s') && Drained(s, w) && !Touches(a, w, k)
    requires a.Flush? || a.Update? || a.Write?
    ensures Kept(c, s, s', w, k)
  {
    match a
    case Flush(v, j) => KeptByFlush(c, s, v, j, w, k);
    case Update(v, j) => KeptByUpdate(c, s, v, j, w, k);
    case Write(v, j, op) => KeptByWrite(c, s, v, j, op, w, k);
    case _ =>
  }

  lemma KeptByFlush(c: Config, s: Store, v: WorkerId, j: Key, w: WorkerId, k: Key)
    requires CanFlush(s, v, j) && Drained(s, w)
    ensures Kept(c, s, DoFlush(s, v, j), w, k)
  {
  }

  lemma KeptByUpdate(c: Config, s: Store, v: WorkerId, j: Key, w: WorkerId, k: Key)
    requires CanUpdate(c, s, v, j) && Drained(s, w)
    ensures Kept(c, s, DoUpdate(c, s, v, j), w, k)
  {
  }

  lemma KeptByWrite(c: Config, s: Store, v: WorkerId, j: Key, op: Op, w: WorkerId, k: Key)
    requires CanWrite(c, s, v, j, op) && (v != w || j != k)
    ensures Kept(c, s, DoWrite(c, s, v, j, op), w, k)
  {
  }

  lemma KeptByMove(c: Config, s: Store, a: Action, s': Store, w: WorkerId, k: Key)
    requires ValidConfig(c) && Step(c, s, a, s') && !Touches(a, w, k) && (a.Depart? || a.Install? || a.Deploy?)
    ensures Kept(c, s, s', w, k)
  {
    if a.Deploy? && a.w == w {
      assert c.bucketOf(k) < c.numBuckets;
    }
  }

  lemma KeptStep(c: Config, s: Store, a: Action, s': Store, w: WorkerId, k: Key)
    requires ValidConfig(c) && Step(c, s, a, s') && Drained(s, w) && !Touches(a, w, k)
    ensures Kept(c, s, s', w, k) && Drained(s', w)
  {
    StaysDrained(c, s, a, s', w);
    if a.Flush? || a.Update? || a.Write? {
      KeptByRoutine(c, s, a, s', w, k);
    } else if a.Depart? || a.Install? || a.Deploy? {
      KeptByMove(c, s, a, s', w, k);
    }
  }

  lemma {:induction false} KeptSince(c: Config, trace: seq<Store>, acts: seq<Action>, w: WorkerId, k: Key, i: nat,
                                     j: nat)
    requires IsRun(c, trace, acts) && i <= j < |trace| && Drained(trace[i], w)
    requires forall m | i <= m < j :: !Touches(acts[m], w, k)
    ensures Kept(c, trace[i], trace[j], w, k) && Drained(trace[j], w)
    decreases j
  {
    if i < j {
      KeptSince(c, trace, acts, w, k, i, j - 1);
      assert RunStep(c, trace, acts, j - 1);
      KeptStep(c, trace[j - 1], acts[j - 1], trace[j], w, k);
    }
  }

  /** What the backend holds after a write. */
  function Written(before: Option<Value>, op: Op): Option<Value> {
    match op
    case Put(v) => Some(v)
    case Append(v) => Some((if before.Some? then before.value else []) + v)
    case Drop => None
  }

  lemma WriteEffect(c: Config, s: Store, a: Action, s': Store)
    requires Step(c, s, a, s') && a.Write?
    ensures Lookup(s'.backend, (a.w, a.k)) == Written(Lookup(s.backend, (a.w, a.k)), a.op)
    ensures Lookup(MapAt(s'.maps, a.w, c.bucketOf(a.k)), a.k) == if a.op.Drop? then None else Some(a.w)
    ensures Drained(s', a.w)
  {
  }

  /** Nothing fetched, flushed or relocated in the background undoes a write: the
      backend and the key map of the worker hold what was written until it writes
      the key again, starts its next batch or hands over buckets. */
  lemma NoLostUpdate(c: Config, trace: seq<Store>, acts: seq<Action>, i: nat, j: nat)
    requires IsRun(c, trace, acts) && i < j < |trace| && acts[i].Write?
    requires forall m | i < m < j :: !Touches(acts[m], acts[i].w, acts[i].k)
    ensures var w, k := acts[i].w, acts[i].k;
            && Lookup(trace[j].backend, (w, k)) == Written(Lookup(trace[i].backend, (w, k)), acts[i].op)
            && Lookup(MapAt(trace[j].maps, w, c.bucketOf(k)), k) == if acts[i].op.Drop? then None else Some(w)
  {
    assert RunStep(c, trace, acts, i);
    WriteEffect(c, trace[i], acts[i], trace[i + 1]);
    KeptSince(c, trace, acts, acts[i].w, acts[i].k, i + 1, j);
  }

  /** Additional keys are neither keys of the batch nor on the way already. */
  lemma AdditionalKeysDisjoint(c: Config, trace: seq<Store>, acts: seq<Action>, i: nat, k: Key)
    requires IsRun(c, trace, acts) && i < |acts| && acts[i].StartScan? && k in acts[i].keys
    ensures var y := SessionOf(trace[i].sessions, acts[i].w);
            k !in y.pending && (y.batch.Some? ==> k !in y.batch.value.from)
  {
    RunKeeps(c, trace, acts, i);
    assert RunStep(c, trace, acts, i);
    var a := acts[i];
    CollectedByScan(c, trace[i], ModelAfter(acts[..i]), a.w, a.c, a.keys, a.finished, a.allDone, k);
  }
}

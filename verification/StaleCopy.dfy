/**
 A run that brings a deleted value back. By-key migration leaves a copy at the
 source, and an unknown key is read from the owner of its bucket, so a bucket
 that returns to a worker with an old copy of a deleted key answers with it.
 */
module StaleCopy {
  import opened Types
  import opened KeyedStore
  import opened StoreInvariant
  import opened RecordFlow
  import opened Cluster
  import opened ClusterInvariant
  import opened ClusterProperties
  import opened SysRuns
  import opened Reconfiguration
  import opened ScaleUp

  lemma DropsK(c: Config, s: Store, be: Backends)
    requires c.bucketOf == BUCKET_OF && Holds(s, OnBatch(GOT, true, map[]), map[K := 1], be)
    ensures CanWrite(c, s, 1, K, Drop)
    ensures Holds(DoWrite(c, s, 1, K, Drop), OnBatch(GOT, true, map[]), map[], be - {(1, K)})
  {
    assert map[K := 1] - {K} == map[];
  }

  /** The value is stored at worker 1 and the entry says so. */
  lemma Relocates(c: Config, r: States, s: Sys, model: Model, be: Backends) returns (s': Sys)
    requires c.bucketOf == BUCKET_OF && Closed(c, r) && r(s, model) && !s.aborted
    requires Holds(s.store, OnBatch(GOT, false, OnWay(Some(V), false, false)), map[K := 0], be)
    ensures r(s', model) && Holds(s'.store, OnBatch(GOT, false, map[]), map[K := 1], be[(1, K) := V]) && Framed(s, s')
  {
    FlushesK(s.store, map[K := 0], be);
    var s1 := s.(store := DoFlush(s.store, 1, K));
    Work(c, r, s, model, Flush(1, K), s1.store);
    UpdatesK(c, s1.store, be[(1, K) := V], true);
    s' := s1.(store := DoUpdate(c, s1.store, 1, K));
    Work(c, r, s1, model, Update(1, K), s'.store);
    assert Framed(s, s1) && Framed(s1, s');
    FramedOn(s, s1, s');
  }

  /** Worker 1 deletes K, ends its batch and has no records at hand. */
  lemma Deletes(c: Config, r: States, s: Sys, be: Backends) returns (s': Sys)
    requires c.bucketOf == BUCKET_OF && Closed(c, r) && r(s, map[K := V]) && !s.aborted
    requires Holds(s.store, OnBatch(GOT, false, map[]), map[K := 1], be)
    ensures r(s', map[]) && Holds(s'.store, IDLE, map[], be - {(1, K)}) && Hand(s', 1) == {}
    ensures Framed(s.(hand := s'.hand), s') && forall v: WorkerId | v != 1 :: Hand(s', v) == Hand(s, v)
  {
    ServesK(s.store, map[], map[K := 1], be);
    var s1 := Answers(c, r, s, map[K := V], 1, GOT);
    DropsK(c, s1.store, be);
    var s2 := s1.(store := DoWrite(c, s1.store, 1, K, Drop));
    Work(c, r, s1, map[K := V], Write(1, K, Drop), s2.store);
    assert map[K := V] - {K} == map[];
    s' := Rests(c, r, s2, map[], 1);
  }

  /** Worker 1 has fetched and deleted K; its old copy is at worker 0. */
  ghost predicate Deleted(s: Sys) {
    && Resting(s) && s.told == {} && s.gone == {} && NoItems(s.flow)
    && s.flow.stage == Idle && s.flow.table == [0, 1] && s.flow.ups == {0} && s.flow.active == {0, 1}
    && (forall v: WorkerId :: EventualOf(s.store, v) == NO_EVENTUAL)
    && KeyMap(s.store.maps, 1) == map[] && s.store.backend == map[(0, K) := V]
  }

  lemma DeletedNow(s: Sys, s': Sys)
    requires Scaled(s) && !s'.aborted && Holds(s'.store, IDLE, map[], map[(0, K) := V])
    requires Framed(s.(flow := s'.flow, hand := s'.hand), s') && s'.flow == s.flow.(chan := s'.flow.chan)
    requires NoItems(s'.flow) && forall v: WorkerId :: Hand(s', v) == {}
    ensures Deleted(s')
  {
    forall v: WorkerId
      ensures SessionOf(s'.store.sessions, v) == IDLE && Hand(s', v) == {} && EventualOf(s'.store, v) == NO_EVENTUAL
    {
      assert SessionOf(s.store.sessions, v) == IDLE && EventualOf(s.store, v) == NO_EVENTUAL;
    }
  }

  lemma SecondOwner(c: Config, r: States, s: Sys) returns (s': Sys)
    requires c == Setup(c.maxKeys, c.eventual) && Ready(c, r, s, map[K := V]) && Scaled(s)
    ensures Ready(c, r, s', map[]) && Deleted(s')
  {
    var be := map[(0, K) := V];
    Normal1(c, r, s, map[K := V]);
    RoutedToSecond(c, r, s, map[K := V]);
    var s1 := Fetching(c, r, s, map[K := V], be);
    var s2 := Relocates(c, r, s1, map[K := V], be);
    s' := Deletes(c, r, s2, be[(1, K) := V]);
    assert be[(1, K) := V] - {(1, K)} == be;
    Frames(s, s1, s2, s');
    forall v: WorkerId ensures Hand(s', v) == {} {
      assert v != 1 ==> Hand(s', v) == Hand(s2, v) == Hand(s1, v) == {};
    }
    DeletedNow(s, s');
  }

  lemma Frames(s: Sys, s1: Sys, s2: Sys, s': Sys)
    requires Framed(s.(flow := s1.flow, hand := s1.hand), s1) && Framed(s1, s2) && Framed(s2.(hand := s'.hand), s')
    ensures Framed(s.(flow := s'.flow, hand := s'.hand), s') && s'.flow == s1.flow
  {
    forall v: WorkerId | v != 1 ensures SessionOf(s'.store.sessions, v) == SessionOf(s.store.sessions, v) {
      assert SessionOf(s1.store.sessions, v) == SessionOf(s.store.sessions, v);
      assert SessionOf(s2.store.sessions, v) == SessionOf(s1.store.sessions, v);
    }
  }

  lemma Normal1(c: Config, r: States, s: Sys, model: Model)
    requires Sound(c, r) && r(s, model) && s.flow.stage == Idle
    ensures PhaseOf(s.flow, 1) == Normal
  {
    Knows(c, r, s, model);
    IdlePeers(s.flow);
  }

  /** Worker 0 has bucket 1 again, and a record of it at hand. */
  lemma BackAgain(c: Config, r: States, s: Sys) returns (s': Sys)
    requires c == Setup(c.maxKeys, c.eventual) && Ready(c, r, s, map[]) && Deleted(s)
    ensures r(s', map[]) && !s'.aborted && SessionOf(s'.store.sessions, 0) == IDLE && 1 in Hand(s', 0)
    ensures EventualOf(s'.store, 0) == NO_EVENTUAL && s'.store.backend == map[(0, K) := V]
    ensures CanBegin(c, s'.store, 0, {K}) && GetWorkerID(s'.store.maps, 0, 1, K) == 0
  {
    var s1 := Reconfigures(c, r, s, map[], [0, 0], {0});
    Knows(c, r, s1, map[]);
    AtFirst(c, s1, map[]);
    assert Chan(s1.flow, 0, 0) == [];
    s' := Deliver(c, r, s1, map[], 0, 0, 1);
  }

  lemma AtFirst(c: Config, s: Sys, model: Model)
    requires StoreOk(c, s.store, model) && FlowOk(s.flow) && Coupled(c, s)
    requires c.bucketOf == BUCKET_OF && c.numBuckets == 2
    requires CanFinish(s.flow) && s.flow.next == [0, 0] && s.flow.ups == {0} && s.flow.updated == {0}
    requires SessionOf(s.store.sessions, 0) == IDLE && KeyMap(s.store.maps, 1) == map[]
    ensures CanEmit(s.flow, 0, Record(0, 1)) && s.flow.route[0][1] == 0 && PhaseOf(s.flow, 0) == Normal
    ensures CanBegin(c, s.store, 0, {K}) && GetWorkerID(s.store.maps, 0, 1, K) == 0
  {
    assert Switched(s.flow, 0) && 0 in s.flow.active + s.flow.updated;
    FinishedHome(s.flow, 1);
    HomeHasMap(c, s.store.maps, 0, 1);
    assert BucketOk(c, s.store.maps, 1);
    assert s.store.maps.table[(0, 1)].owner == 0;
  }

  lemma ServeSteps(c: Config, s: Sys, w: WorkerId, result: map<Key, Option<Value>>)
    requires !s.aborted && CanServe(s.store, w, result)
    ensures SysStep(c, s, State(Serve(w, result)), s.(store := DoServe(s.store, w)))
  {
  }

  /** Worker 0 is about to answer with the old copy. */
  lemma ReadsOld(c: Config, r: States, s: Sys) returns (s': Sys)
    requires c == Setup(c.maxKeys, c.eventual) && Ready(c, r, s, map[]) && Deleted(s)
    ensures r(s', map[]) && !s'.aborted && CanServe(s'.store, 0, GOT)
  {
    var s1 := BackAgain(c, r, s);
    s' := AskLocal(c, r, s1, map[], 0, {K});
    assert Stored(s1.store.backend, 0, {K}) == GOT;
  }

  /** Worker 0 writes K, a scale-up moves the bucket to worker 1, where K is
      fetched and deleted, a scale-down moves the bucket back, and the old value is
      read: the global map has no K, and the batch is served with V. */
  lemma StaleCopyRun(n: int, eventual: bool) returns (trace: seq<Sys>, acts: seq<SysAction>)
    ensures IsSysRun(Setup(n, eventual), trace, acts) && |acts| > 0
    ensures acts[|acts| - 1] == State(Serve(0, map[K := Some(V)])) && K !in ModelAt(acts, |acts| - 1)
  {
    var c := Setup(n, eventual);
    AllStates(c);
    var s1 := Scales(c, AllReached(c));
    var s2 := SecondOwner(c, AllReached(c), s1);
    var s := ReadsOld(c, AllReached(c), s2);
    ServeSteps(c, s, 0, GOT);
    trace, acts := EndsWith(c, s, map[], State(Serve(0, GOT)), s.(store := DoServe(s.store, 0)));
  }
}

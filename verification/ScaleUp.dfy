/**
 A worker that has all buckets writes a key, a second worker gets the bucket of
 the key, and a batch there fetches the key from the first one. The routines of
 the batch can be interrupted anywhere.
 */
module ScaleUp {
  import opened Types
  import opened KeyedStore
  import opened StoreInvariant
  import opened StoreRefinement
  import opened RecordFlow
  import opened FlowProperties
  import opened Cluster
  import opened ClusterInvariant
  import opened ClusterProperties
  import opened SysRuns
  import opened Reconfiguration

  function AloneFlow(): Flow {
    Flow(Idle, [0, 0], [0, 0], {0}, {0}, {0}, {0}, map[0 := [0, 0]], map[], map[], map[],
         map[0 := At(0), 1 := At(0)], map[], map[], {})
  }

  function AloneMaps(): Maps {
    Maps(map[(0, 0) := Entry(0, Some(map[])), (0, 1) := Entry(0, Some(map[]))], map[], map[0 := At(0), 1 := At(0)])
  }

  /** Worker 0 has both buckets. */
  function Alone(): Sys {
    Sys(Store(AloneMaps(), map[], map[], map[]), AloneFlow(), map[], map[0 := {0}, 1 := {0}], {}, {}, false)
  }

  lemma AloneStore(c: Config)
    requires c.bucketOf == BUCKET_OF && c.numBuckets == 2
    ensures ValidConfig(c) && Init(c, Alone().store)
  {
  }

  lemma AloneFlowInit()
    ensures FlowInit(AloneFlow())
  {
  }

  lemma AloneInit(c: Config)
    requires c.bucketOf == BUCKET_OF && c.numBuckets == 2
    ensures ValidConfig(c) && SysInit(c, Alone())
  {
    AloneStore(c);
    AloneFlowInit();
    var s := Alone();
    forall w: WorkerId, b: Bucket | b < 2 ensures (w, b) in s.store.maps.table <==> w in s.flow.deployed {}
    assert History(s, 0) == {0} && History(s, 1) == {0};
  }

  /** The reached states with this start. */
  lemma AllStates(c: Config)
    requires c == Setup(c.maxKeys, c.eventual)
    ensures Closed(c, AllReached(c)) && Sound(c, AllReached(c)) && AllReached(c)(Alone(), map[]) && ValidConfig(c)
  {
    ReachedClosed(c);
    ReachedSound(c);
    AloneInit(c);
    ReachedInit(c, Alone());
  }

  // ---------------------------------------------------------------- the write

  /** Worker 0 has answered a batch on K. */
  lemma AsksAlone(c: Config, r: States) returns (s: Sys)
    requires c == Setup(c.maxKeys, c.eventual) && Closed(c, r) && r(Alone(), map[])
    ensures r(s, map[]) && s == Alone().(store := Alone().store.(sessions := s.store.sessions), flow := s.flow,
                                        hand := s.hand)
    ensures s.flow == AloneFlow().(chan := s.flow.chan) && NoItems(s.flow)
    ensures SessionOf(s.store.sessions, 0) == Session(Asking({K}, 0, map[K := None], true), map[], map[])
    ensures forall v: WorkerId | v != 0 :: SessionOf(s.store.sessions, v) == IDLE && Hand(s, v) == {}
  {
    var s0 := Alone();
    var s1 := Deliver(c, r, s0, map[], 0, 0, 1);
    var s2 := AskLocal(c, r, s1, map[], 0, {K});
    assert Stored(s1.store.backend, 0, {K}) == map[K := None];
    s := Answers(c, r, s2, map[], 0, map[K := None]);
    OnlySessions(s1, s2, s, 0);
    forall u: Upstream, v: WorkerId ensures Chan(s.flow, u, v) == [] {
      assert Chan(s1.flow, u, v) == Chan(s0.flow, u, v) == [];
    }
    forall v: WorkerId | v != 0 ensures SessionOf(s.store.sessions, v) == IDLE && Hand(s, v) == {} {
      assert Hand(s1, v) == Hand(s0, v);
    }
  }

  lemma Puts(c: Config, s: Store)
    requires c == Setup(c.maxKeys, c.eventual) && s.maps == AloneMaps() && s.backend == map[]
    requires WriteDue(s, 0, K)
    ensures CanWrite(c, s, 0, K, Put(V))
    ensures var s' := DoWrite(c, s, 0, K, Put(V));
            && s' == s.(maps := s'.maps, backend := map[(0, K) := V]) && s'.maps.home == AloneMaps().home
            && KeyMap(s'.maps, 1) == map[K := 0]
  {
  }

  /** Worker 0 has written K and is at rest. */
  lemma Writes(c: Config, r: States) returns (s: Sys)
    requires c == Setup(c.maxKeys, c.eventual) && Closed(c, r) && Sound(c, r) && r(Alone(), map[])
    ensures Ready(c, r, s, map[K := V]) && s.told == {} && s.gone == {} && s.store.eventual == map[]
    ensures s.flow == AloneFlow().(chan := s.flow.chan) && NoItems(s.flow)
    ensures KeyMap(s.store.maps, 1) == map[K := 0] && s.store.backend == map[(0, K) := V]
  {
    var s1 := AsksAlone(c, r);
    Puts(c, s1.store);
    var s2 := s1.(store := DoWrite(c, s1.store, 0, K, Put(V)));
    Work(c, r, s1, map[], Write(0, K, Put(V)), s2.store);
    s := Rests(c, r, s2, map[K := V], 0);
    forall v: WorkerId ensures SessionOf(s.store.sessions, v) == IDLE && Hand(s, v) == {} {
      assert v != 0 ==> SessionOf(s1.store.sessions, v) == IDLE && Hand(s1, v) == {};
    }
  }

  // ------------------------------------------------------------- the scale-up

  /** Worker 1 has bucket 1, and K is still at worker 0. */
  ghost predicate Scaled(s: Sys) {
    && Resting(s) && s.told == {} && s.gone == {} && NoItems(s.flow)
    && s.flow.stage == Idle && s.flow.table == [0, 1] && s.flow.active == {0, 1} && s.flow.ups == {0}
    && (forall v: WorkerId :: EventualOf(s.store, v) == NO_EVENTUAL)
    && KeyMap(s.store.maps, 1) == map[K := 0] && s.store.backend == map[(0, K) := V]
  }

  lemma CompleteSteps(c: Config, s: Sys, s': Sys)
    requires !s.aborted && CanFinish(s.flow) && s.told == {} && Removed(s.flow) == {}
    requires s' == s.(flow := DoFinish(s.flow))
    ensures SysStep(c, s, Complete, s')
  {
    assert s.gone + Removed(s.flow) == s.gone;
  }

  lemma ScaledNow(c: Config, s: Sys, s1: Sys, s2: Sys, history: map<Bucket, set<WorkerId>>)
    requires c.numBuckets == 2 && s.store.eventual == map[] && s.told == {} && s.gone == {} && Resting(s1)
    requires KeyMap(s.store.maps, 1) == map[K := 0] && s.store.backend == map[(0, K) := V]
    requires Carried(c, s.(history := history), s1) && NoItems(s1.flow) && s1.flow.next == [0, 1]
    requires s1.flow.updated == {0, 1} && s1.flow.ups == {0} && s2 == s1.(flow := DoFinish(s1.flow))
    ensures Scaled(s2)
  {
    forall v: WorkerId ensures EventualOf(s2.store, v) == NO_EVENTUAL {
      assert EventualOf(s.store, v) == NO_EVENTUAL;
    }
    forall v: WorkerId ensures SessionOf(s2.store.sessions, v) == IDLE && Hand(s2, v) == {} {
      assert SessionOf(s1.store.sessions, v) == IDLE && Hand(s1, v) == {};
    }
    forall u: Upstream, w: WorkerId ensures Chan(s2.flow, u, w) == [] { assert Chan(s1.flow, u, w) == []; }
  }

  lemma Scales(c: Config, r: States) returns (s: Sys)
    requires c == Setup(c.maxKeys, c.eventual) && Closed(c, r) && Sound(c, r) && r(Alone(), map[])
    ensures Ready(c, r, s, map[K := V]) && Scaled(s)
  {
    var s0 := Writes(c, r);
    var s1 := Reconfigures(c, r, s0, map[K := V], [0, 1], {0, 1});
    s := s1.(flow := DoFinish(s1.flow));
    assert Removed(s1.flow) == {};
    CompleteSteps(c, s1, s);
    Go(c, r, s1, map[K := V], Complete, s);
    ScaledNow(c, s0, s1, s, NewHistory(s0, [0, 1]));
  }

  // --------------------------------------------------- the batch of worker 1

  /** Worker 1 has the key map of bucket 1. */
  ghost predicate Holds(s: Store, x: Session, keys: map<Key, WorkerId>, be: Backends) {
    && SessionOf(s.sessions, 1) == x && !EventualOf(s, 1).enabled && s.backend == be
    && Lookup(s.maps.home, 1) == Some(At(1)) && HasMap(s.maps, 1, 1) && MapAt(s.maps, 1, 1) == keys
  }

  /** K on its way from worker 0. */
  function OnWay(value: Option<Value>, flushed: bool, updated: bool): map<Key, Migration> {
    map[K := Migration(0, true, value, flushed, updated)]
  }

  function OnBatch(got: map<Key, Option<Value>>, served: bool, pending: map<Key, Migration>): Session {
    Session(Some(Batch(map[K := 0], got, served)), pending, map[])
  }

  const GOT: map<Key, Option<Value>> := map[K := Some(V)]

  /** Only worker 1 has done something. */
  ghost predicate Framed(s: Sys, s': Sys) {
    && s' == s.(store := Store(s'.store.maps, s'.store.backend, s'.store.sessions, s.store.eventual))
    && (forall v: WorkerId | v != 1 :: SessionOf(s'.store.sessions, v) == SessionOf(s.store.sessions, v))
  }

  lemma FramedOn(s: Sys, s1: Sys, s2: Sys)
    requires Framed(s, s1) && Framed(s1, s2)
    ensures Framed(s, s2)
  {
    forall v: WorkerId | v != 1 ensures SessionOf(s2.store.sessions, v) == SessionOf(s.store.sessions, v) {
      assert SessionOf(s1.store.sessions, v) == SessionOf(s.store.sessions, v);
    }
  }

  lemma BeginsK(c: Config, s: Store, be: Backends)
    requires c.bucketOf == BUCKET_OF && Holds(s, IDLE, map[K := 0], be)
    ensures CanBegin(c, s, 1, {K})
    ensures Holds(DoBegin(c, s, 1, {K}), OnBatch(map[], false, OnWay(None, false, false)), map[K := 0], be)
  {
    var x := SessionOf(DoBegin(c, s, 1, {K}).sessions, 1);
    assert x.batch.value.from == map[K := 0];
    assert x.pending == OnWay(None, false, false);
  }

  lemma FetchesK(s: Store, keys: map<Key, WorkerId>, be: Backends)
    requires Holds(s, OnBatch(map[], false, OnWay(None, false, false)), keys, be) && Lookup(be, (0, K)) == Some(V)
    ensures CanFetch(s, 1, K)
    ensures Holds(DoFetch(s, 1, K), OnBatch(GOT, false, OnWay(Some(V), false, false)), keys, be)
  {
  }

  lemma FlushesK(s: Store, keys: map<Key, WorkerId>, be: Backends)
    requires Holds(s, OnBatch(GOT, false, OnWay(Some(V), false, false)), keys, be)
    ensures CanFlush(s, 1, K)
    ensures Holds(DoFlush(s, 1, K), OnBatch(GOT, false, OnWay(Some(V), true, false)), keys, be[(1, K) := V])
  {
  }

  lemma UpdatesK(c: Config, s: Store, be: Backends, flushed: bool)
    requires c.bucketOf == BUCKET_OF && Holds(s, OnBatch(GOT, false, OnWay(Some(V), flushed, false)), map[K := 0], be)
    ensures CanUpdate(c, s, 1, K)
    ensures Holds(DoUpdate(c, s, 1, K), OnBatch(GOT, false, if flushed then map[] else OnWay(Some(V), false, true)),
                  map[K := 1], be)
  {
    assert map[K := 0][K := 1] == map[K := 1];
    assert OnWay(Some(V), true, true) - {K} == map[];
  }

  lemma ServesK(s: Store, pending: map<Key, Migration>, keys: map<Key, WorkerId>, be: Backends)
    requires Holds(s, OnBatch(GOT, false, pending), keys, be)
    ensures CanServe(s, 1, GOT) && Holds(DoServe(s, 1), OnBatch(GOT, true, pending), keys, be)
  {
  }

  /** A record of bucket 1 reaches worker 1, and a batch fetches K. */
  lemma Fetching(c: Config, r: States, s: Sys, model: Model, be: Backends) returns (s': Sys)
    requires c.bucketOf == BUCKET_OF && Closed(c, r) && r(s, model) && Resting(s) && NoItems(s.flow)
    requires Holds(s.store, IDLE, map[K := 0], be) && Lookup(be, (0, K)) == Some(V)
    requires CanEmit(s.flow, 0, Record(0, 1)) && s.flow.route[0][1] == 1 && PhaseOf(s.flow, 1) == Normal
    ensures r(s', model) && Holds(s'.store, OnBatch(GOT, false, OnWay(Some(V), false, false)), map[K := 0], be)
    ensures Framed(s.(flow := s'.flow, hand := s'.hand), s')
    ensures s'.flow == s.flow.(chan := s'.flow.chan) && NoItems(s'.flow)
    ensures forall v: WorkerId | v != 1 :: Hand(s', v) == {}
  {
    assert Chan(s.flow, 0, 1) == [];
    var s1 := Deliver(c, r, s, model, 0, 1, 1);
    BeginsK(c, s1.store, be);
    Begins(c, r, s1, model, 1, {K});
    var s2 := s1.(store := DoBegin(c, s1.store, 1, {K}));
    FetchesK(s2.store, map[K := 0], be);
    s' := s2.(store := DoFetch(s2.store, 1, K));
    Work(c, r, s2, model, Fetch(1, K), s'.store);
    assert Framed(s1, s2) && Framed(s2, s');
    FramedOn(s1, s2, s');
    forall u: Upstream, w: WorkerId ensures Chan(s'.flow, u, w) == [] { assert Chan(s.flow, u, w) == []; }
    forall v: WorkerId | v != 1 ensures Hand(s', v) == {} { assert Hand(s1, v) == Hand(s, v) == {}; }
  }

  /** Worker 1 serves its batch, ends it and has no records at hand. */
  lemma Leaves(c: Config, r: States, s: Sys, model: Model, pending: map<Key, Migration>, keys: map<Key, WorkerId>,
               be: Backends) returns (s': Sys)
    requires Closed(c, r) && r(s, model) && !s.aborted && Holds(s.store, OnBatch(GOT, false, pending), keys, be)
    ensures r(s', model) && Holds(s'.store, Session(None, pending, map[]), keys, be) && Hand(s', 1) == {}
    ensures Framed(s.(hand := s'.hand), s') && forall v: WorkerId | v != 1 :: Hand(s', v) == Hand(s, v)
  {
    ServesK(s.store, pending, keys, be);
    var s1 := Answers(c, r, s, model, 1, GOT);
    s' := Rests(c, r, s1, model, 1);
  }

  /** While worker 1 has its bucket, records of the bucket are sent to it. */
  lemma RoutedToSecond(c: Config, r: States, s: Sys, model: Model)
    requires Sound(c, r) && r(s, model) && (s.flow.stage == Idle || s.flow.stage == Forwarding) && c.numBuckets == 2
    requires s.flow.table == [0, 1] && s.flow.ups == {0} && PhaseOf(s.flow, 1) == Normal
    requires SessionOf(s.store.sessions, 1) == IDLE && EventualOf(s.store, 1) == NO_EVENTUAL
    ensures CanEmit(s.flow, 0, Record(0, 1)) && s.flow.route[0][1] == 1
    ensures Holds(s.store, IDLE, KeyMap(s.store.maps, 1), s.store.backend)
  {
    Knows(c, r, s, model);
    assert HomeOk(s.flow, 1) && WorkerOk(s.flow, 1) && ChanOk(s.flow, 0, 1);
    HomeHasMap(c, s.store.maps, 1, 1);
  }
}

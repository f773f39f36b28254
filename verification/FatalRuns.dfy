/**
 A first deployment with two workers, and the run of it that ends with the delete
 of a key nobody has set.
 */
module FatalRuns {
  import opened Types
  import opened KeyedStore
  import opened StoreRefinement
  import opened RecordFlow
  import opened FlowProperties
  import opened Cluster
  import opened ClusterProperties
  import opened SysRuns

  // ----------------------------------------------------------- first deployment

  /** Worker 1 owns bucket 0 and worker 2 bucket 1; one upstream task. */
  function FirstFlow(): Flow {
    Flow(Idle, [1, 2], [1, 2], {1, 2}, {1, 2}, {1, 2}, {0}, map[0 := [1, 2]], map[], map[], map[],
         map[0 := At(1), 1 := At(2)], map[], map[], {})
  }

  function FirstMaps(): Maps {
    Maps(map[(1, 0) := Entry(1, Some(map[])), (1, 1) := Entry(2, None), (2, 0) := Entry(1, None),
        (2, 1) := Entry(2, Some(map[]))],
         map[], map[0 := At(1), 1 := At(2)])
  }

  function First(): Sys {
    Sys(Store(FirstMaps(), map[], map[], map[]), FirstFlow(), map[], map[0 := {1}, 1 := {2}], {}, {}, false)
  }

  lemma FirstStore(c: Config)
    requires c.bucketOf == BUCKET_OF && c.numBuckets == 2
    ensures ValidConfig(c) && Init(c, First().store)
  {
  }

  lemma FirstFlowInit()
    ensures FlowInit(FirstFlow())
  {
  }

  lemma FirstInit(c: Config)
    requires c.bucketOf == BUCKET_OF && c.numBuckets == 2
    ensures ValidConfig(c) && SysInit(c, First())
  {
    FirstStore(c);
    FirstFlowInit();
    var s := First();
    forall w: WorkerId, b: Bucket | b < 2 ensures (w, b) in s.store.maps.table <==> w in s.flow.deployed {}
    assert History(s, 0) == {1} && History(s, 1) == {2};
  }

  /** Worker 2 has a record of its bucket at hand and answers a batch on keys of
      the bucket. */
  lemma FirstBatch(n: int, eventual: bool, r: States, keys: set<Key>) returns (s: Sys, all: map<Key, Option<Value>>)
    requires Closed(Setup(n, eventual), r) && r(First(), map[]) && [] !in keys
    ensures r(s, map[]) && all.Keys == keys
    ensures s == First().(store := First().store.(sessions := s.store.sessions), flow := s.flow, hand := s.hand)
    ensures s.flow == FirstFlow().(chan := s.flow.chan) && (forall u: Upstream, v: WorkerId :: Chan(s.flow, u, v) == [])
    ensures SessionOf(s.store.sessions, 2) == Session(Asking(keys, 2, all, true), map[], map[])
    ensures forall v: WorkerId | v != 2 :: SessionOf(s.store.sessions, v) == IDLE && Hand(s, v) == {}
  {
    var c, s0 := Setup(n, eventual), First();
    var s1 := Deliver(c, r, s0, map[], 0, 2, 1);
    assert forall u: Upstream, v: WorkerId :: Chan(s0.flow, u, v) == [];
    assert forall v: WorkerId :: Hand(s0, v) == {};
    var s2 := AskLocal(c, r, s1, map[], 2, keys);
    all := Stored(s1.store.backend, 2, keys);
    s := Answers(c, r, s2, map[], 2, all);
    OnlySessions(s1, s2, s, 2);
    forall v: WorkerId | v != 2 ensures SessionOf(s.store.sessions, v) == IDLE && Hand(s, v) == {} {
      assert Hand(s1, v) == Hand(s0, v);
    }
  }

  lemma DeadDelete(c: Config, s: Sys, w: WorkerId, k: Key)
    requires !s.aborted && WriteDue(s.store, w, k) && k !in MapAt(s.store.maps, w, c.bucketOf(k))
    ensures SysStep(c, s, State(Write(w, k, Drop)), s.(aborted := true))
  {
  }

  /** A batch reads a key nobody has set and deletes it: the worker aborts. */
  lemma DeadDeleteRun(n: int, eventual: bool) returns (trace: seq<Sys>, acts: seq<SysAction>)
    ensures IsSysRun(Setup(n, eventual), trace, acts) && |acts| > 0 && trace[|acts|].aborted
    ensures acts[|acts| - 1] == State(Write(2, [0], Drop)) && [0] !in ModelAt(acts, |acts| - 1)
  {
    var c := Setup(n, eventual);
    ReachedClosed(c);
    FirstInit(c);
    ReachedInit(c, First());
    var s, all := FirstBatch(n, eventual, AllReached(c), {[0]});
    assert WriteDue(s.store, 2, [0]);
    DeadDelete(c, s, 2, [0]);
    trace, acts := EndsWith(c, s, map[], State(Write(2, [0], Drop)), s.(aborted := true));
  }
}

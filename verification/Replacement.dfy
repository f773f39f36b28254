/**
 A reconfiguration that gives the buckets of two workers to a new one. The keys
 are still at the old workers then: with eventual migration the new worker is told
 to fetch them, otherwise they stay there and are fetched on demand, also from
 workers that the completed reconfiguration has removed.
 */
module Replacement {
  import opened Types
  import opened KeyedStore
  import opened StoreInvariant
  import opened RecordFlow
  import opened Cluster
  import opened ClusterInvariant
  import opened ClusterProperties
  import opened SysRuns
  import opened Reconfiguration
  import opened FatalRuns

  /** Bucket 0 is at worker 1 with no keys, and bucket 1 at worker 2 with m. */
  ghost predicate FirstOwners(maps: Maps, m: map<Key, WorkerId>) {
    && Lookup(maps.home, 0) == Some(At(1)) && MapAt(maps, 1, 0) == map[]
    && Lookup(maps.home, 1) == Some(At(2)) && HasMap(maps, 2, 1) && MapAt(maps, 2, 1) == m
  }

  lemma WritesKey(c: Config, r: States, s: Sys, model: Model, k: Key, m: map<Key, WorkerId>)
    returns (s': Sys, model': Model)
    requires Closed(c, r) && c.bucketOf == BUCKET_OF && r(s, model) && !s.aborted && WriteDue(s.store, 2, k) && k != []
    requires FirstOwners(s.store.maps, m)
    ensures r(s', model') && FirstOwners(s'.store.maps, m[k := 2])
    ensures s' == s.(store := s.store.(maps := s'.store.maps, backend := s'.store.backend))
  {
    s' := s.(store := DoWrite(c, s.store, 2, k, Put(V)));
    model' := Apply(model, k, Put(V));
    Work(c, r, s, model, Write(2, k, Put(V)), s'.store);
  }

  lemma {:induction false} WritesRest(c: Config, r: States, s: Sys, model: Model, rest: set<Key>, m: map<Key, WorkerId>)
    returns (s': Sys, model': Model, m': map<Key, WorkerId>)
    requires Closed(c, r) && c.bucketOf == BUCKET_OF && r(s, model) && !s.aborted && FirstOwners(s.store.maps, m)
    requires [] !in rest && forall k | k in rest :: WriteDue(s.store, 2, k)
    requires forall k | k in m :: m[k] == 2
    ensures r(s', model') && FirstOwners(s'.store.maps, m')
    ensures s' == s.(store := s.store.(maps := s'.store.maps, backend := s'.store.backend))
    ensures m'.Keys == m.Keys + rest && forall k | k in m' :: m'[k] == 2
    decreases rest
  {
    if rest == {} {
      s', model', m' := s, model, m;
    } else {
      var k: Key :| k in rest;
      var s1, model1 := WritesKey(c, r, s, model, k, m);
      s', model', m' := WritesRest(c, r, s1, model1, rest - {k}, m[k := 2]);
    }
  }

  lemma AtRest(c: Config, s: Sys, s': Sys, m: map<Key, WorkerId>)
    requires s' == s.(store := DoEnd(s.store, 2), hand := s.hand - {2}) && !s.aborted && FirstOwners(s.store.maps, m)
    requires SessionOf(s.store.sessions, 2).pending == map[] && SessionOf(s.store.sessions, 2).scans == map[]
    requires forall v: WorkerId | v != 2 :: SessionOf(s.store.sessions, v) == IDLE && Hand(s, v) == {}
    ensures Resting(s') && KeyMap(s'.store.maps, 0) == map[] && KeyMap(s'.store.maps, 1) == m
  {
    forall v: WorkerId ensures SessionOf(s'.store.sessions, v) == IDLE && Hand(s', v) == {} {
      assert v != 2 ==> SessionOf(s.store.sessions, v) == IDLE && Hand(s, v) == {};
    }
  }

  /** Worker 2 has written the keys and is at rest. */
  lemma Prepared(n: int, eventual: bool, r: States, keys: set<Key>)
    returns (s: Sys, model: Model, m: map<Key, WorkerId>)
    requires Closed(Setup(n, eventual), r) && Sound(Setup(n, eventual), r) && r(First(), map[]) && [] !in keys
    ensures Ready(Setup(n, eventual), r, s, model) && KeyMap(s.store.maps, 0) == map[] && KeyMap(s.store.maps, 1) == m
    ensures m.Keys == keys && forall k | k in m :: m[k] == 2
    ensures s.flow == FirstFlow().(chan := s.flow.chan) && NoItems(s.flow)
    ensures s.history == First().history && s.told == {} && s.gone == {} && s.store.eventual == map[]
  {
    var c := Setup(n, eventual);
    var s1, all := FirstBatch(n, eventual, r, keys);
    var s2;
    s2, model, m := WritesRest(c, r, s1, map[], keys, map[]);
    s := Rests(c, r, s2, model, 2);
    forall v: WorkerId | v != 2 ensures SessionOf(s2.store.sessions, v) == IDLE && Hand(s2, v) == {} {
      assert SessionOf(s1.store.sessions, v) == IDLE && Hand(s1, v) == {};
    }
    AtRest(c, s2, s, m);
  }

  /** Everything has gone over to worker 0, but nobody was told about the keys. */
  ghost predicate Replaced(s: Sys) {
    && !s.aborted && s.told == {} && s.gone == {}
    && History(s, 0) == {1, 0} && History(s, 1) == {2, 0}
    && SessionOf(s.store.sessions, 0) == IDLE && EventualOf(s.store, 0) == NO_EVENTUAL
    && (forall w: WorkerId :: EventualOf(s.store, w).remaining == 0)
    && CanFinish(s.flow) && NoItems(s.flow) && s.flow.next == [0, 0]
    && s.flow.active == {1, 2} && s.flow.updated == {0} && s.flow.ups == {0}
  }

  /** Worker 0 has both buckets; m is the key map of bucket 1. */
  ghost predicate NewOwner(s: Store, x: Session, ev: Eventual, m: map<Key, WorkerId>) {
    && SessionOf(s.sessions, 0) == x && EventualOf(s, 0) == ev
    && (0, 0) in s.maps.table && s.maps.table[(0, 0)] == Entry(0, Some(map[])) && Lookup(s.maps.home, 0) == Some(At(0))
    && HasMap(s.maps, 0, 1) && MapAt(s.maps, 0, 1) == m && Lookup(s.maps.home, 1) == Some(At(0))
  }

  lemma OwnsBoth(c: Config, s: Sys, model: Model, m: map<Key, WorkerId>)
    requires StoreOk(c, s.store, model) && FlowOk(s.flow) && Coupled(c, s) && c.numBuckets == 2
    requires s.flow.stage == Draining && s.flow.next == [0, 0]
    requires KeyMap(s.store.maps, 0) == map[] && KeyMap(s.store.maps, 1) == m
    ensures NewOwner(s.store, SessionOf(s.store.sessions, 0), EventualOf(s.store, 0), m)
  {
    FinishedHome(s.flow, 0);
    FinishedHome(s.flow, 1);
    HomeHasMap(c, s.store.maps, 0, 0);
    HomeHasMap(c, s.store.maps, 0, 1);
    assert BucketOk(c, s.store.maps, 0);
    assert s.store.maps.table[(0, 0)].owner == 0;
  }

  lemma NoMigrationLeft(c: Config, s: Sys, s': Sys)
    requires s.store.eventual == map[] && Carried(c, s, s')
    ensures forall w: WorkerId :: EventualOf(s'.store, w) == NO_EVENTUAL
  {
    forall w: WorkerId ensures EventualOf(s'.store, w) == NO_EVENTUAL {
      assert EventualOf(s.store, w) == NO_EVENTUAL;
    }
  }

  lemma ReplacedNow(c: Config, s: Sys, s': Sys)
    requires Resting(s) && s.history == First().history && s.told == {} && s.gone == {} && s.store.eventual == map[]
    requires Carried(c, s.(history := NewHistory(s, [0, 0])), s') && Resting(s')
    requires CanFinish(s'.flow) && NoItems(s'.flow) && s'.flow.next == [0, 0]
    requires s'.flow.active == {1, 2} && s'.flow.updated == {0} && s'.flow.ups == {0}
    ensures Replaced(s')
  {
    NoMigrationLeft(c, s.(history := NewHistory(s, [0, 0])), s');
    assert NewHistory(s, [0, 0])[0] == {1, 0} && NewHistory(s, [0, 0])[1] == {2, 0};
  }

  lemma Replaces(n: int, eventual: bool, r: States, keys: set<Key>)
    returns (s: Sys, model: Model, m: map<Key, WorkerId>)
    requires Closed(Setup(n, eventual), r) && Sound(Setup(n, eventual), r) && r(First(), map[]) && [] !in keys
    ensures r(s, model) && Replaced(s) && NewOwner(s.store, IDLE, NO_EVENTUAL, m)
    ensures m.Keys == keys && forall k | k in m :: m[k] == 2
  {
    var c := Setup(n, eventual);
    var s1;
    s1, model, m := Prepared(n, eventual, r, keys);
    s := Reconfigures(c, r, s1, model, [0, 0], {0});
    ReplacedNow(c, s1, s);
    Knows(c, r, s, model);
    OwnsBoth(c, s, model, m);
  }

  // ------------------------------------------------------------ fetch on demand

  lemma CompleteSteps(c: Config, s: Sys, s': Sys)
    requires !c.eventual && !s.aborted && CanFinish(s.flow) && s.told == {}
    requires s' == s.(flow := DoFinish(s.flow), gone := s.gone + Removed(s.flow))
    ensures SysStep(c, s, Complete, s')
  {
  }

  /** Nobody is told, and the reconfiguration is complete. */
  lemma Completes(n: int, r: States, s: Sys, model: Model) returns (s': Sys)
    requires Closed(Setup(n, false), r) && r(s, model) && Replaced(s)
    ensures r(s', model) && s' == s.(flow := DoFinish(s.flow), gone := {1, 2})
  {
    assert Removed(s.flow) == {1, 2};
    s' := s.(flow := DoFinish(s.flow), gone := s.gone + Removed(s.flow));
    CompleteSteps(Setup(n, false), s, s');
    Go(Setup(n, false), r, s, model, Complete, s');
  }

  lemma RoutesToNew(f: Flow)
    requires FlowOk(f) && CanFinish(f) && f.next == [0, 0] && f.ups == {0} && f.updated == {0}
    ensures var f' := DoFinish(f);
            CanEmit(f', 0, Record(0, 1)) && f'.route[0][1] == 0 && PhaseOf(f', 0) == Normal
  {
    assert Switched(f, 0) && 0 in f.active + f.updated;
  }

  /** Worker 0 asks for K, which it finds listed at worker 2. */
  lemma AsksFor(c: Config, s: Store, m: map<Key, WorkerId>)
    requires c.bucketOf == BUCKET_OF && NewOwner(s, IDLE, NO_EVENTUAL, m) && K in m && m[K] == 2
    ensures CanBegin(c, s, 0, {K})
    ensures var s' := DoBegin(c, s, 0, {K});
            CanFetch(s', 0, K) && Pending(s'.sessions, 0)[K] == Migration(2, true, None, false, false)
  {
  }

  lemma FetchSteps(c: Config, s: Sys, w: WorkerId, k: Key)
    requires !s.aborted && CanFetch(s.store, w, k)
    ensures SysStep(c, s, State(Fetch(w, k)), s.(store := DoFetch(s.store, w, k)))
  {
  }

  /** Worker 0 is about to fetch K from a worker that is gone. */
  lemma AsksGone(n: int, r: States) returns (s: Sys, model: Model)
    requires Closed(Setup(n, false), r) && Sound(Setup(n, false), r) && r(First(), map[])
    ensures r(s, model) && !s.aborted && CanFetch(s.store, 0, K) && Pending(s.store.sessions, 0)[K].src in s.gone
  {
    var c := Setup(n, false);
    var s1, m;
    s1, model, m := Replaces(n, false, r, {K});
    var s2 := AtHand(n, r, s1, model);
    AsksFor(c, s2.store, m);
    Begins(c, r, s2, model, 0, {K});
    s := s2.(store := DoBegin(c, s2.store, 0, {K}));
  }

  /** The reconfiguration is complete and worker 0 has a record of bucket 1. */
  lemma AtHand(n: int, r: States, s: Sys, model: Model) returns (s': Sys)
    requires Closed(Setup(n, false), r) && Sound(Setup(n, false), r) && r(s, model) && Replaced(s)
    ensures r(s', model) && !s'.aborted && 1 in Hand(s', 0) && s'.store == s.store && s'.gone == {1, 2}
  {
    Knows(Setup(n, false), r, s, model);
    RoutesToNew(s.flow);
    var s1 := Completes(n, r, s, model);
    assert Chan(s.flow, 0, 0) == [];
    s' := Deliver(Setup(n, false), r, s1, model, 0, 0, 1);
  }

  /** Without eventual migration a worker is fetched from after the reconfiguration
      that removed it was completed. */
  lemma OnDemandRun(n: int) returns (trace: seq<Sys>, acts: seq<SysAction>)
    ensures IsSysRun(Setup(n, false), trace, acts) && |acts| > 0 && acts[|acts| - 1] == State(Fetch(0, K))
    ensures var s := trace[|acts| - 1];
            K in Pending(s.store.sessions, 0) && Pending(s.store.sessions, 0)[K].src in s.gone
  {
    var c := Setup(n, false);
    ReachedClosed(c);
    ReachedSound(c);
    FirstInit(c);
    ReachedInit(c, First());
    var s, model := AsksGone(n, AllReached(c));
    FetchSteps(c, s, 0, K);
    trace, acts := EndsWith(c, s, model, State(Fetch(0, K)), s.(store := DoFetch(s.store, 0, K)));
  }
}

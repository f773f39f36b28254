/**
 Building blocks for runs of the whole system: the steps of one batch, and what
 it means that a state is reached.

 A block takes any set of states that is closed under steps and leads from one of
 them to another. The reached states are such a set.
 */
module SysRuns {
  import opened Types
  import opened KeyedStore
  import opened StoreInvariant
  import opened RecordFlow
  import opened Cluster
  import opened ClusterInvariant
  import opened ClusterProperties

  /** Two buckets, with the empty key in the first. */
  const BUCKET_OF: Key -> Bucket := k => if k == [] then 0 else 1

  function Setup(n: int, eventual: bool): Config {
    Config(BUCKET_OF, 2, n, eventual)
  }

  const K: Key := [0]
  const V: Value := [7]

  /** States, with their global maps. */
  type States = (Sys, Model) -> bool

  ghost predicate Closed(c: Config, r: States) {
    forall s: Sys, model: Model, a: SysAction, s': Sys | r(s, model) && SysStep(c, s, a, s') ::
        r(s', SysModelStep(model, a))
  }

  ghost predicate Sound(c: Config, r: States) {
    forall s: Sys, model: Model {:trigger SysOk(c, s, model)} :: r(s, model) ==> SysOk(c, s, model)
  }

  lemma Knows(c: Config, r: States, s: Sys, model: Model)
    requires Sound(c, r) && r(s, model)
    ensures StoreOk(c, s.store, model) && FlowOk(s.flow) && Coupled(c, s) && EventualOk(c, s)
  {
    assert SysOk(c, s, model);
  }

  lemma Go(c: Config, r: States, s: Sys, model: Model, a: SysAction, s': Sys)
    requires Closed(c, r) && r(s, model) && SysStep(c, s, a, s') && !a.State?
    ensures r(s', model)
  {
    assert SysModelStep(model, a) == model;
  }

  /** One more step of a routine. */
  lemma Work(c: Config, r: States, s: Sys, model: Model, x: Action, t: Store)
    requires Closed(c, r) && r(s, model) && !s.aborted && Step(c, s.store, x, t) && Due(s.store, x)
    ensures r(s.(store := t), ModelStep(model, x))
  {
    assert SysStep(c, s, State(x), s.(store := t)) && SysModelStep(model, State(x)) == ModelStep(model, x);
  }

  // -------------------------------------------------------- batches of a worker

  /** A batch of w that looked up all its keys at w and has the given results. */
  function Asking(keys: set<Key>, w: WorkerId, got: map<Key, Option<Value>>, served: bool): Option<Batch> {
    Some(Batch(map k | k in keys :: w, got, served))
  }

  function Stored(be: Backends, w: WorkerId, keys: set<Key>): map<Key, Option<Value>> {
    map k | k in keys :: Lookup(be, (w, k))
  }

  /** Nothing but the session of w is different. */
  ghost predicate OnlySession(s: Sys, s': Sys, w: WorkerId) {
    && s' == s.(store := s.store.(sessions := s'.store.sessions))
    && forall v: WorkerId | v != w :: SessionOf(s'.store.sessions, v) == SessionOf(s.store.sessions, v)
  }

  lemma OnlySessions(s: Sys, s1: Sys, s2: Sys, w: WorkerId)
    requires OnlySession(s, s1, w) && OnlySession(s1, s2, w)
    ensures OnlySession(s, s2, w)
  {
    forall v: WorkerId | v != w ensures SessionOf(s2.store.sessions, v) == SessionOf(s.store.sessions, v) {
      assert SessionOf(s1.store.sessions, v) == SessionOf(s.store.sessions, v);
    }
  }

  lemma ReadOne(c: Config, r: States, s: Sys, model: Model, w: WorkerId, keys: set<Key>, done: set<Key>, k: Key)
    returns (s': Sys)
    requires Closed(c, r) && r(s, model) && !s.aborted && k in keys && k !in done
    requires SessionOf(s.store.sessions, w).batch == Asking(keys, w, Stored(s.store.backend, w, done), false)
    ensures r(s', model) && OnlySession(s, s', w)
    ensures SessionOf(s'.store.sessions, w) ==
              SessionOf(s.store.sessions, w)
                .(batch := Asking(keys, w, Stored(s.store.backend, w, done + {k}), false))
  {
    var got := Stored(s.store.backend, w, done);
    assert got[k := Lookup(s.store.backend, (w, k))] == Stored(s.store.backend, w, done + {k});
    s' := s.(store := DoReadLocal(s.store, w, k));
    Work(c, r, s, model, ReadLocal(w, k), s'.store);
  }

  /** w reads the rest of the keys from its own backend. */
  lemma {:induction false} ReadRest(c: Config, r: States, s: Sys, model: Model, w: WorkerId, keys: set<Key>,
                                    rest: set<Key>)
    returns (s': Sys)
    requires Closed(c, r) && r(s, model) && !s.aborted && rest <= keys
    requires SessionOf(s.store.sessions, w).batch == Asking(keys, w, Stored(s.store.backend, w, keys - rest), false)
    ensures r(s', model) && OnlySession(s, s', w)
    ensures SessionOf(s'.store.sessions, w) ==
              SessionOf(s.store.sessions, w).(batch := Asking(keys, w, Stored(s.store.backend, w, keys), false))
    decreases rest
  {
    if rest == {} {
      s' := s;
      assert keys - rest == keys;
    } else {
      var k: Key :| k in rest;
      var s1 := ReadOne(c, r, s, model, w, keys, keys - rest, k);
      assert keys - rest + {k} == keys - (rest - {k});
      s' := ReadRest(c, r, s1, model, w, keys, rest - {k});
    }
  }

  /** A batch of w on keys it finds at itself, up to its answer. */
  lemma AskLocal(c: Config, r: States, s: Sys, model: Model, w: WorkerId, keys: set<Key>) returns (s': Sys)
    requires Closed(c, r) && r(s, model) && !s.aborted && SessionOf(s.store.sessions, w) == IDLE
    requires !EventualOf(s.store, w).enabled && CanBegin(c, s.store, w, keys)
    requires forall k | k in keys :: c.bucketOf(k) in Hand(s, w) && GetWorkerID(s.store.maps, w, c.bucketOf(k), k) == w
    ensures r(s', model) && OnlySession(s, s', w)
    ensures SessionOf(s'.store.sessions, w) ==
              Session(Asking(keys, w, Stored(s.store.backend, w, keys), false), map[], map[])
  {
    var s1 := s.(store := DoBegin(c, s.store, w, keys));
    BeginsLocal(c, s.store, w, keys);
    Begins(c, r, s, model, w, keys);
    assert keys - keys == {} && Stored(s.store.backend, w, {}) == map[];
    s' := ReadRest(c, r, s1, model, w, keys, keys);
    OnlySessions(s, s1, s', w);
  }

  lemma BeginsLocal(c: Config, s: Store, w: WorkerId, keys: set<Key>)
    requires CanBegin(c, s, w, keys) && !EventualOf(s, w).enabled
    requires forall k | k in keys :: GetWorkerID(s.maps, w, c.bucketOf(k), k) == w
    ensures SessionOf(DoBegin(c, s, w, keys).sessions, w) == Session(Asking(keys, w, map[], false), map[], map[])
  {
    var x := SessionOf(DoBegin(c, s, w, keys).sessions, w);
    assert x.batch.value.from == map k | k in keys :: w;
    assert x.pending == map[];
  }

  lemma Begins(c: Config, r: States, s: Sys, model: Model, w: WorkerId, keys: set<Key>)
    requires Closed(c, r) && r(s, model) && !s.aborted && CanBegin(c, s.store, w, keys)
    requires forall k | k in keys :: c.bucketOf(k) in Hand(s, w)
    ensures r(s.(store := DoBegin(c, s.store, w, keys)), model)
  {
    var s1 := s.(store := DoBegin(c, s.store, w, keys));
    assert Step(c, s.store, Begin(w, keys), s1.store);
    Go(c, r, s, model, StartBatch(w, keys), s1);
  }

  /** w answers its batch. */
  lemma Answers(c: Config, r: States, s: Sys, model: Model, w: WorkerId, result: map<Key, Option<Value>>)
    returns (s': Sys)
    requires Closed(c, r) && r(s, model) && !s.aborted && CanServe(s.store, w, result)
    ensures r(s', model) && OnlySession(s, s', w) && s' == s.(store := DoServe(s.store, w))
  {
    s' := s.(store := DoServe(s.store, w));
    Work(c, r, s, model, Serve(w, result), s'.store);
  }

  /** w ends its batch and has no records at hand. */
  lemma Rests(c: Config, r: States, s: Sys, model: Model, w: WorkerId) returns (s': Sys)
    requires Closed(c, r) && r(s, model) && !s.aborted && CanEnd(s.store, w)
    ensures r(s', model)
    ensures s' == s.(store := DoEnd(s.store, w), hand := s.hand - {w})
  {
    var s1 := s.(store := DoEnd(s.store, w));
    Work(c, r, s, model, End(w), s1.store);
    s' := s1.(hand := s1.hand - {w});
    Go(c, r, s1, model, Rest(w), s');
  }

  /** A record of bucket b reaches worker w. */
  lemma Deliver(c: Config, r: States, s: Sys, model: Model, u: Upstream, w: WorkerId, b: Bucket) returns (s': Sys)
    requires Closed(c, r) && r(s, model) && !s.aborted && SessionOf(s.store.sessions, w).batch == None
    requires CanEmit(s.flow, u, Record(0, b)) && s.flow.route[u][b] == w && Chan(s.flow, u, w) == []
    requires PhaseOf(s.flow, w) == Normal
    ensures r(s', model) && b in Hand(s', w)
    ensures s' == s.(flow := s.flow.(chan := s'.flow.chan), hand := s'.hand)
    ensures forall v: Upstream, x: WorkerId :: Chan(s'.flow, v, x) == Chan(s.flow, v, x)
    ensures forall v: WorkerId | v != w :: Hand(s', v) == Hand(s, v)
  {
    var rec := Record(0, b);
    var s1 := s.(flow := DoEmit(s.flow, u, rec));
    Go(c, r, s, model, Move(Emit(u, rec)), s1);
    s' := s1.(flow := Taken(s1.flow, u, w), hand := s1.hand[w := Hand(s1, w) + {b}]);
    Go(c, r, s1, model, Receive(u, w, rec), s');
  }

  // ---------------------------------------------------------------- whole runs

  ghost predicate RunsTo(c: Config, trace: seq<Sys>, acts: seq<SysAction>, s: Sys, model: Model) {
    IsSysRun(c, trace, acts) && trace[|acts|] == s && ModelAt(acts, |acts|) == model
  }

  ghost predicate Reached(c: Config, s: Sys, model: Model) {
    exists trace, acts :: RunsTo(c, trace, acts, s, model)
  }

  lemma {:induction false} ModelPrefix(acts: seq<SysAction>, a: SysAction, n: nat)
    requires n <= |acts|
    ensures ModelAt(acts + [a], n) == ModelAt(acts, n)
  {
    if n > 0 { ModelPrefix(acts, a, n - 1); }
  }

  lemma StepKept(c: Config, trace: seq<Sys>, acts: seq<SysAction>, s': Sys, a: SysAction, i: nat)
    requires |trace| == |acts| + 1 && i < |acts| && StepAt(c, trace, acts, i)
    ensures StepAt(c, trace + [s'], acts + [a], i)
  {
  }

  lemma StepAdded(c: Config, trace: seq<Sys>, acts: seq<SysAction>, s': Sys, a: SysAction)
    requires |trace| == |acts| + 1 && SysStep(c, trace[|acts|], a, s')
    ensures StepAt(c, trace + [s'], acts + [a], |acts|)
  {
  }

  lemma RunOn(c: Config, trace: seq<Sys>, acts: seq<SysAction>, s: Sys, model: Model, a: SysAction, s': Sys)
    requires RunsTo(c, trace, acts, s, model) && SysStep(c, s, a, s')
    ensures RunsTo(c, trace + [s'], acts + [a], s', SysModelStep(model, a))
  {
    var trace', acts' := trace + [s'], acts + [a];
    ModelPrefix(acts, a, |acts|);
    StepAdded(c, trace, acts, s', a);
    forall i: nat | i < |acts'| ensures StepAt(c, trace', acts', i) {
      if i < |acts| { StepKept(c, trace, acts, s', a, i); }
    }
  }

  lemma ReachedOn(c: Config, s: Sys, model: Model, a: SysAction, s': Sys)
    requires Reached(c, s, model) && SysStep(c, s, a, s')
    ensures Reached(c, s', SysModelStep(model, a))
  {
    var trace, acts :| RunsTo(c, trace, acts, s, model);
    RunOn(c, trace, acts, s, model, a, s');
  }

  ghost function AllReached(c: Config): States {
    (s: Sys, model: Model) => Reached(c, s, model)
  }

  /** The reached states are closed under steps. */
  lemma ReachedClosed(c: Config)
    ensures Closed(c, AllReached(c))
  {
    forall s: Sys, model: Model, a: SysAction, s': Sys | Reached(c, s, model) && SysStep(c, s, a, s')
      ensures Reached(c, s', SysModelStep(model, a))
    {
      ReachedOn(c, s, model, a, s');
    }
  }

  lemma ReachedSound(c: Config)
    ensures Sound(c, AllReached(c))
  {
    forall s: Sys, model: Model | Reached(c, s, model) ensures SysOk(c, s, model) {
      var trace, acts :| RunsTo(c, trace, acts, s, model);
      SysRunOk(c, trace, acts, |acts|);
    }
  }

  lemma ReachedInit(c: Config, s: Sys)
    requires ValidConfig(c) && SysInit(c, s)
    ensures AllReached(c)(s, map[])
  {
    assert RunsTo(c, [s], [], s, map[]);
  }

  lemma LastStep(c: Config, before: seq<Sys>, earlier: seq<SysAction>, s: Sys, model: Model, a: SysAction, s': Sys)
    requires RunsTo(c, before, earlier, s, model)
    ensures |before| == |earlier| + 1
    ensures var trace, acts := before + [s'], earlier + [a];
            && acts[|acts| - 1] == a && trace[|acts| - 1] == s && trace[|acts|] == s'
            && ModelAt(acts, |acts| - 1) == model
  {
    ModelPrefix(earlier, a, |earlier|);
  }

  /** A run that ends with one more step. */
  lemma EndsWith(c: Config, s: Sys, model: Model, a: SysAction, s': Sys) returns (trace: seq<Sys>, acts: seq<SysAction>)
    requires Reached(c, s, model) && SysStep(c, s, a, s')
    ensures IsSysRun(c, trace, acts) && |acts| > 0 && trace[|acts|] == s'
    ensures acts[|acts| - 1] == a && trace[|acts| - 1] == s && ModelAt(acts, |acts| - 1) == model
  {
    var before: seq<Sys>, earlier: seq<SysAction> :| RunsTo(c, before, earlier, s, model);
    RunOn(c, before, earlier, s, model, a, s');
    LastStep(c, before, earlier, s, model, a, s');
    trace, acts := before + [s'], earlier + [a];
  }
}

/**
 A run with two cancelling workers in which a scan starts too late. The first
 worker is counted in the first batch, the second one has more keys than a call
 collects. In the second batch both are scanned again, the second worker is
 counted first, and the call for the first one finds its locks gone.
 */
module LateScan {
  import opened Types
  import opened KeyedStore
  import opened StoreInvariant
  import opened EventualMigration
  import opened RecordFlow
  import opened Cluster
  import opened ClusterProperties
  import opened SysRuns
  import opened FatalRuns
  import opened Replacement

  // ----------------------------------------------- the state of the new worker

  const AFFECTED: map<WorkerId, seq<Bucket>> := map[1 := [0], 2 := [1]]
  const BOTH: map<WorkerId, Scan> := map[1 := Waiting({}), 2 := Waiting({})]

  /** The batch on the empty key, which nobody has set. */
  function Batch0(got: map<Key, Option<Value>>, served: bool): Option<Batch> {
    Some(Batch(map[[] := 0], got, served))
  }

  lemma BothScans(n: int, s: Store, ev: Eventual)
    requires CanBegin(Setup(n, true), s, 0, {[]}) && EventualOf(s, 0) == ev && ev.enabled && ev.affected == AFFECTED
    requires GetWorkerID(s.maps, 0, 0, []) == 0
    ensures SessionOf(DoBegin(Setup(n, true), s, 0, {[]}).sessions, 0) == Session(Batch0(map[], false), map[], BOTH)
  {
    var x := SessionOf(DoBegin(Setup(n, true), s, 0, {[]}).sessions, 0);
    assert x.batch.value.from == map[[] := 0];
    assert x.pending == map[];
    assert x.scans.Keys == {1, 2};
    assert x.scans[1] == Waiting({}) && x.scans[2] == Waiting({});
    assert x.scans == BOTH;
  }

  lemma BeginsBoth(n: int, s: Store, ev: Eventual, m: map<Key, WorkerId>)
    requires NewOwner(s, IDLE, ev, m) && ev.enabled && ev.affected == AFFECTED
    ensures CanBegin(Setup(n, true), s, 0, {[]})
    ensures NewOwner(DoBegin(Setup(n, true), s, 0, {[]}), Session(Batch0(map[], false), map[], BOTH), ev, m)
  {
    assert CanBegin(Setup(n, true), s, 0, {[]});
    BothScans(n, s, ev);
  }

  lemma NothingEligible(s: Store, m: map<Key, WorkerId>, w: WorkerId, b: Bucket)
    requires MapAt(s.maps, 0, 0) == map[] && MapAt(s.maps, 0, 1) == m
    requires (w == 1 && b == 0) || (w == 2 && b == 1 && 2 !in m.Values)
    ensures Eligible(s, 0, w, {}, b) == {}
  {
    assert forall k | k in m :: m[k] in m.Values;
  }

  /** A call for w that finds nothing in its bucket b. */
  lemma StartsEmpty(n: int, s: Store, x: Session, ev: Eventual, m: map<Key, WorkerId>, w: WorkerId, b: Bucket)
    requires NewOwner(s, x, ev, m) && ev.enabled && ev.affected == AFFECTED
    requires w in x.scans && x.scans[w] == Waiting({})
    requires (w == 1 && b == 0) || (w == 2 && b == 1 && 2 !in m.Values)
    ensures var fin := ev.finished + {(w, b)};
            && CanStartScan(Setup(n, true), s, 0, w, {}, fin, true)
            && NewOwner(DoStartScan(s, 0, w, {}, fin, true), x.(scans := x.scans[w := Running({}, true)]),
                ev.(finished := fin), m)
  {
    var fin := ev.finished + {(w, b)};
    NothingEligible(s, m, w, b);
    assert ScanResult(Setup(n, true), s, 0, w, {}, {}, fin, true);
    var y := SessionOf(DoStartScan(s, 0, w, {}, fin, true).sessions, 0);
    assert y.pending == x.pending;
  }

  lemma EndsCall(s: Store, x: Session, ev: Eventual, m: map<Key, WorkerId>, w: WorkerId)
    requires NewOwner(s, x, ev, m) && w in x.scans && x.scans[w].Running? && x.pending == map[]
    ensures CanEndScan(s, 0, w)
    ensures NewOwner(DoEndScan(s, 0, w), x.(scans := x.scans - {w}),
            if x.scans[w].allDone then CountDone(ev, w) else ev, m)
  {
  }

  lemma FindsNothing(n: int, r: States, s: Sys, model: Model, x: Session, ev: Eventual, m: map<Key, WorkerId>,
                     w: WorkerId, b: Bucket) returns (s': Sys)
    requires Closed(Setup(n, true), r) && r(s, model) && !s.aborted
    requires NewOwner(s.store, x, ev, m) && ev.enabled && ev.affected == AFFECTED
    requires w in x.scans && x.scans[w] == Waiting({}) && x.pending == map[]
    requires (w == 1 && b == 0) || (w == 2 && b == 1 && 2 !in m.Values)
    ensures r(s', model) && s' == s.(store := s'.store)
    ensures NewOwner(s'.store, x.(scans := x.scans - {w}), CountDone(ev.(finished := ev.finished + {(w, b)}), w), m)
  {
    var fin := ev.finished + {(w, b)};
    var t := DoStartScan(s.store, 0, w, {}, fin, true);
    StartsEmpty(n, s.store, x, ev, m, w, b);
    Work(Setup(n, true), r, s, model, StartScan(0, w, {}, fin, true), t);
    var x1 := x.(scans := x.scans[w := Running({}, true)]);
    EndsCall(t, x1, ev.(finished := fin), m, w);
    s' := s.(store := DoEndScan(t, 0, w));
    Work(Setup(n, true), r, s.(store := t), model, EndScan(0, w), s'.store);
    assert x1.scans - {w} == x.scans - {w};
  }

  /** Keys on their way from worker 2, not fetched yet. */
  function Fresh(keys: set<Key>): map<Key, Migration> {
    map k | k in keys :: Migration(2, false, None, false, false)
  }

  /** A call for worker 2 that collects all keys and stops at the limit. */
  lemma StartsFull(n: int, s: Store, x: Session, ev: Eventual, m: map<Key, WorkerId>)
    requires NewOwner(s, x, ev, m) && ev.enabled && ev.affected == AFFECTED && (2, 1) !in ev.finished
    requires 2 in x.scans && x.scans[2] == Waiting({}) && x.pending == map[]
    requires |m.Keys| == n > 0 && forall k | k in m :: m[k] == 2
    ensures CanStartScan(Setup(n, true), s, 0, 2, m.Keys, ev.finished, false)
    ensures NewOwner(DoStartScan(s, 0, 2, m.Keys, ev.finished, false),
                     x.(pending := Fresh(m.Keys), scans := x.scans[2 := Running(m.Keys, false)]), ev, m)
  {
    forall k | k in m.Keys
      ensures exists b :: b in ev.affected[2] && (2, b) !in ev.finished && k in Eligible(s, 0, 2, {}, b)
    {
      assert 1 in ev.affected[2] && k in Eligible(s, 0, 2, {}, 1);
    }
    assert ScanResult(Setup(n, true), s, 0, 2, {}, m.Keys, ev.finished, false);
    assert map[] + Fresh(m.Keys) == Fresh(m.Keys);
    assert ev.(finished := ev.finished) == ev;
  }

  function OnWay(value: Option<Value>, flushed: bool): Migration {
    Migration(2, false, value, flushed, false)
  }

  lemma FetchesKey(s: Store, x: Session, ev: Eventual, m: map<Key, WorkerId>, k: Key)
    requires NewOwner(s, x, ev, m) && k in x.pending && x.pending[k] == OnWay(None, false)
    ensures CanFetch(s, 0, k)
    ensures NewOwner(DoFetch(s, 0, k), x.(pending := x.pending[k := OnWay(Some(Fetched(s, 2, k)), false)]), ev, m)
  {
  }

  lemma FlushesKey(s: Store, x: Session, ev: Eventual, m: map<Key, WorkerId>, k: Key, v: Value)
    requires NewOwner(s, x, ev, m) && k in x.pending && x.pending[k] == OnWay(Some(v), false)
    ensures CanFlush(s, 0, k)
    ensures NewOwner(DoFlush(s, 0, k), x.(pending := x.pending[k := OnWay(Some(v), true)]), ev, m)
  {
  }

  lemma UpdatesKey(n: int, s: Store, x: Session, ev: Eventual, m: map<Key, WorkerId>, k: Key, v: Value)
    requires NewOwner(s, x, ev, m) && k in x.pending && x.pending[k] == OnWay(Some(v), true) && k in m && k != []
    ensures CanUpdate(Setup(n, true), s, 0, k)
    ensures NewOwner(DoUpdate(Setup(n, true), s, 0, k), x.(pending := x.pending - {k}), ev, m[k := 0])
  {
  }

  /** One collected key is fetched, stored and listed as local. */
  lemma MovesKey(n: int, r: States, s: Sys, model: Model, x: Session, ev: Eventual, m: map<Key, WorkerId>, k: Key)
    returns (s': Sys)
    requires Closed(Setup(n, true), r) && r(s, model) && !s.aborted && NewOwner(s.store, x, ev, m)
    requires k in x.pending && x.pending[k] == OnWay(None, false) && k in m && k != []
    ensures r(s', model) && s' == s.(store := s'.store)
    ensures NewOwner(s'.store, x.(pending := x.pending - {k}), ev, m[k := 0])
  {
    var c, v := Setup(n, true), Fetched(s.store, 2, k);
    FetchesKey(s.store, x, ev, m, k);
    var t1, x1 := DoFetch(s.store, 0, k), x.(pending := x.pending[k := OnWay(Some(v), false)]);
    Work(c, r, s, model, Fetch(0, k), t1);
    FlushesKey(t1, x1, ev, m, k, v);
    var t2, x2 := DoFlush(t1, 0, k), x1.(pending := x1.pending[k := OnWay(Some(v), true)]);
    Work(c, r, s.(store := t1), model, Flush(0, k), t2);
    UpdatesKey(n, t2, x2, ev, m, k, v);
    s' := s.(store := DoUpdate(c, t2, 0, k));
    Work(c, r, s.(store := t2), model, Update(0, k), s'.store);
    assert x2.pending - {k} == x.pending - {k};
  }

  lemma {:induction false} MovesRest(n: int, r: States, s: Sys, model: Model, x: Session, ev: Eventual,
                                     m: map<Key, WorkerId>, rest: set<Key>) returns (s': Sys, m': map<Key, WorkerId>)
    requires Closed(Setup(n, true), r) && r(s, model) && !s.aborted && NewOwner(s.store, x, ev, m)
    requires x.pending == Fresh(rest) && rest <= m.Keys && [] !in rest
    requires forall k | k in m && m[k] == 2 :: k in rest
    ensures r(s', model) && s' == s.(store := s'.store)
    ensures NewOwner(s'.store, x.(pending := map[]), ev, m') && 2 !in m'.Values
    decreases rest
  {
    if rest == {} {
      s', m' := s, m;
      assert Fresh(rest) == map[];
    } else {
      var k: Key :| k in rest;
      var s1 := MovesKey(n, r, s, model, x, ev, m, k);
      assert x.pending - {k} == Fresh(rest - {k});
      s', m' := MovesRest(n, r, s1, model, x.(pending := x.pending - {k}), ev, m[k := 0], rest - {k});
    }
  }

  /** The batch on the empty key is read, served and ended. */
  lemma ReadsEmpty(s: Store, scans: map<WorkerId, Scan>, ev: Eventual, m: map<Key, WorkerId>)
    requires NewOwner(s, Session(Batch0(map[], false), map[], scans), ev, m)
    ensures var got := map[[] := Lookup(s.backend, (0, []))];
            && CanReadLocal(s, 0, [])
            && NewOwner(DoReadLocal(s, 0, []), Session(Batch0(got, false), map[], scans), ev, m)
  {
  }

  lemma AnswersEmpty(s: Store, scans: map<WorkerId, Scan>, ev: Eventual, m: map<Key, WorkerId>,
                     got: map<Key, Option<Value>>)
    requires NewOwner(s, Session(Batch0(got, false), map[], scans), ev, m) && got.Keys == {[]}
    ensures CanServe(s, 0, got) && NewOwner(DoServe(s, 0), Session(Batch0(got, true), map[], scans), ev, m)
    ensures CanEnd(DoServe(s, 0), 0) && NewOwner(DoEnd(DoServe(s, 0), 0), Session(None, map[], scans), ev, m)
  {
  }

  lemma EndsBatch(n: int, r: States, s: Sys, model: Model, ev: Eventual, m: map<Key, WorkerId>) returns (s': Sys)
    requires Closed(Setup(n, true), r) && r(s, model) && !s.aborted
    requires NewOwner(s.store, Session(Batch0(map[], false), map[], map[]), ev, m)
    ensures r(s', model) && s' == s.(store := s'.store) && NewOwner(s'.store, IDLE, ev, m)
  {
    var c, got := Setup(n, true), map[[] := Lookup(s.store.backend, (0, []))];
    ReadsEmpty(s.store, map[], ev, m);
    var t1 := DoReadLocal(s.store, 0, []);
    Work(c, r, s, model, ReadLocal(0, []), t1);
    AnswersEmpty(t1, map[], ev, m, got);
    var t2 := DoServe(t1, 0);
    Work(c, r, s.(store := t1), model, Serve(0, got), t2);
    s' := s.(store := DoEnd(t2, 0));
    Work(c, r, s.(store := t2), model, End(0), s'.store);
  }

  const TOLD := Eventual(AFFECTED, {}, {}, 2, true, true)
  const ONE_DONE := Eventual(AFFECTED, {(1, 0)}, {1}, 1, true, true)

  /** The call of the first batch for worker 2. */
  lemma CollectsAll(n: int, r: States, s: Sys, model: Model, x: Session, m: map<Key, WorkerId>)
    returns (s': Sys, m': map<Key, WorkerId>)
    requires Closed(Setup(n, true), r) && r(s, model) && !s.aborted && NewOwner(s.store, x, ONE_DONE, m)
    requires x.scans == map[2 := Waiting({})] && x.pending == map[]
    requires |m.Keys| == n > 0 && [] !in m && forall k | k in m :: m[k] == 2
    ensures r(s', model) && s' == s.(store := s'.store)
    ensures NewOwner(s'.store, x.(scans := map[]), ONE_DONE, m') && 2 !in m'.Values
  {
    var c, fin := Setup(n, true), ONE_DONE.finished;
    StartsFull(n, s.store, x, ONE_DONE, m);
    var s1 := s.(store := DoStartScan(s.store, 0, 2, m.Keys, fin, false));
    Work(c, r, s, model, StartScan(0, 2, m.Keys, fin, false), s1.store);
    var running := x.scans[2 := Running(m.Keys, false)];
    var s2;
    s2, m' := MovesRest(n, r, s1, model, x.(pending := Fresh(m.Keys), scans := running), ONE_DONE, m, m.Keys);
    EndsCall(s2.store, x.(scans := running), ONE_DONE, m', 2);
    s' := s2.(store := DoEndScan(s2.store, 0, 2));
    Work(c, r, s2, model, EndScan(0, 2), s'.store);
    assert running - {2} == map[];
  }

  /** Worker 1 is counted in the first batch, worker 2 is not. */
  lemma FirstRound(n: int, r: States, s: Sys, model: Model, m: map<Key, WorkerId>)
    returns (s': Sys, m': map<Key, WorkerId>)
    requires Closed(Setup(n, true), r) && r(s, model) && !s.aborted
    requires 0 in Hand(s, 0) && NewOwner(s.store, IDLE, TOLD, m)
    requires |m.Keys| == n > 0 && [] !in m && forall k | k in m :: m[k] == 2
    ensures r(s', model) && s' == s.(store := s'.store)
    ensures NewOwner(s'.store, IDLE, ONE_DONE, m') && 2 !in m'.Values
  {
    BeginsBoth(n, s.store, TOLD, m);
    var s1 := s.(store := DoBegin(Setup(n, true), s.store, 0, {[]}));
    Begins(Setup(n, true), r, s, model, 0, {[]});
    var x := Session(Batch0(map[], false), map[], BOTH);
    var s2 := FindsNothing(n, r, s1, model, x, TOLD, m, 1, 0);
    assert BOTH - {1} == map[2 := Waiting({})];
    assert CountDone(TOLD.(finished := TOLD.finished + {(1, 0)}), 1) == ONE_DONE;
    var s3;
    s3, m' := CollectsAll(n, r, s2, model, x.(scans := map[2 := Waiting({})]), m);
    s' := EndsBatch(n, r, s3, model, ONE_DONE, m');
  }

  /** In the second batch worker 2 is counted before the call for worker 1. */
  lemma SecondRound(n: int, r: States, s: Sys, model: Model, m: map<Key, WorkerId>) returns (s': Sys)
    requires Closed(Setup(n, true), r) && r(s, model) && !s.aborted
    requires 0 in Hand(s, 0) && NewOwner(s.store, IDLE, ONE_DONE, m) && 2 !in m.Values
    ensures r(s', model) && !s'.aborted && ScanDue(s'.store, 0, 1) && Late(s'.store, 0, 1)
  {
    BeginsBoth(n, s.store, ONE_DONE, m);
    var s1 := s.(store := DoBegin(Setup(n, true), s.store, 0, {[]}));
    Begins(Setup(n, true), r, s, model, 0, {[]});
    var x := Session(Batch0(map[], false), map[], BOTH);
    s' := FindsNothing(n, r, s1, model, x, ONE_DONE, m, 2, 1);
  }

  // ------------------------------------------------------------- the message

  lemma MessageOk(s: Sys)
    requires Replaced(s)
    ensures IsMessage(s, 0, AFFECTED) && Affects(s, 0, 1, 0)
  {
    assert Removed(s.flow) == {1, 2};
  }

  lemma MessageSteps(c: Config, s: Sys, s': Sys)
    requires c.eventual && !s.aborted && s.told == {} && SessionOf(s.store.sessions, 0) == IDLE
    requires EventualOf(s.store, 0) == NO_EVENTUAL && s.flow.stage == Draining
    requires IsMessage(s, 0, AFFECTED) && Affects(s, 0, 1, 0)
    requires s' == s.(store := DoSetMeta(s.store, 0, AFFECTED), told := {0})
    ensures SysStep(c, s, Message(0, AFFECTED), s')
  {
    assert Step(c, s.store, SetMeta(0, AFFECTED), s'.store);
  }

  /** Worker 0 is told about both removed workers. */
  lemma TellsOwner(n: int, r: States, s: Sys, model: Model) returns (s': Sys)
    requires Closed(Setup(n, true), r) && r(s, model) && Replaced(s)
    ensures r(s', model) && s' == s.(store := DoSetMeta(s.store, 0, AFFECTED), told := {0})
    ensures EventualOf(s'.store, 0) == TOLD
  {
    MessageOk(s);
    s' := s.(store := DoSetMeta(s.store, 0, AFFECTED), told := {0});
    assert AFFECTED.Keys == {1, 2} && |AFFECTED| == 2;
    MessageSteps(Setup(n, true), s, s');
    Go(Setup(n, true), r, s, model, Message(0, AFFECTED), s');
  }

  /** Worker 0 has a record of bucket 0 at hand and was told. */
  lemma ToldOwner(n: int, r: States, keys: set<Key>) returns (s: Sys, model: Model, m: map<Key, WorkerId>)
    requires Closed(Setup(n, true), r) && Sound(Setup(n, true), r) && r(First(), map[]) && [] !in keys
    ensures r(s, model) && !s.aborted && 0 in Hand(s, 0) && NewOwner(s.store, IDLE, TOLD, m)
    ensures m.Keys == keys && forall k | k in m :: m[k] == 2
  {
    var s1;
    s1, model, m := Replaces(n, true, r, keys);
    var s2 := TellsOwner(n, r, s1, model);
    Knows(Setup(n, true), r, s2, model);
    s := Deliver(Setup(n, true), r, s2, model, 0, 0, 0);
  }

  // ------------------------------------------------------------------ the run

  function ManyKeys(n: nat): set<Key> {
    if n == 0 then {} else ManyKeys(n - 1) + {Repeat(0, n)}
  }

  lemma {:induction false} ManyKeysSize(n: nat)
    ensures |ManyKeys(n)| == n && forall k | k in ManyKeys(n) :: 0 < |k| <= n
  {
    if n > 0 {
      ManyKeysSize(n - 1);
      assert Repeat(0, n) !in ManyKeys(n - 1);
    }
  }

  lemma LateStep(c: Config, s: Sys)
    requires !s.aborted && ScanDue(s.store, 0, 1) && Late(s.store, 0, 1)
    ensures SysStep(c, s, State(StartScan(0, 1, {}, {}, true)), s.(aborted := true))
  {
  }

  /** For every positive batch size there is a run with two cancelling workers in
      which a worker fails on a lock that is gone. */
  lemma LateScanRun(n: nat) returns (trace: seq<Sys>, acts: seq<SysAction>)
    requires n > 0
    ensures IsSysRun(Setup(n, true), trace, acts) && |acts| > 0 && trace[|acts|].aborted
    ensures acts[|acts| - 1] == State(StartScan(0, 1, {}, {}, true)) && Late(trace[|acts| - 1].store, 0, 1)
  {
    var c, r := Setup(n, true), AllReached(Setup(n, true));
    ReachedClosed(c);
    ReachedSound(c);
    FirstInit(c);
    ReachedInit(c, First());
    ManyKeysSize(n);
    var s1, model, m := ToldOwner(n, r, ManyKeys(n));
    var s2, m2 := FirstRound(n, r, s1, model, m);
    var s3 := SecondRound(n, r, s2, model, m2);
    LateStep(c, s3);
    trace, acts := EndsWith(c, s3, model, State(StartScan(0, 1, {}, {}, true)), s3.(aborted := true));
  }
}

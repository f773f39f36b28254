/**
 Gradual eventual migration in every run of the whole system: a message to a
 worker is worked off in a bounded number of calls, and its end is signalled
 exactly once.
 */
module GradualMigration {
  import opened Types
  import opened KeyedStore
  import opened StoreInvariant
  import opened EventualMigration
  import opened RecordFlow
  import opened Cluster
  import opened ClusterInvariant
  import opened ClusterProperties

  // ------------------------------------------------------------- one step

  ghost predicate Enabled(s: Sys, w: WorkerId) {
    EventualOf(s.store, w).enabled
  }

  predicate ToWorker(a: SysAction, w: WorkerId) {
    a.Message? && a.w == w
  }

  /** A call for x that stops at the configured number of keys. */
  predicate StopsEarly(a: SysAction, w: WorkerId, x: WorkerId) {
    a.State? && a.a.StartScan? && a.a.w == w && a.a.c == x && !a.a.allDone
  }

  predicate Returns(a: SysAction, w: WorkerId, x: WorkerId) {
    a == State(EndScan(w, x))
  }

  lemma WhileEnabled(c: Config, s: Sys, model: Model, w: WorkerId)
    requires SysOk(c, s, model) && Enabled(s, w)
    ensures s.flow.stage == Draining && EventualOf(s.store, w).current && w !in EventualOf(s.store, w).affected
  {
    assert WorkerEventualOk(c, s, w);
    assert NotSelf(s.store.eventual);
  }

  /** Key maps move before the reconfiguration drains. */
  lemma NotWhileDraining(c: Config, s: Sys, a: SysAction, s': Sys, model: Model)
    requires SysOk(c, s, model) && SysStep(c, s, a, s') && s.flow.stage == Draining
    ensures !a.HandOver? && !a.TakeOver?
  {
    assert a.HandOver? ==> WorkerOk(s.flow, a.w);
    if a.TakeOver? { TakeOverParts(c, s, s', a.src, a.dst, model); }
  }

  /** While the migration of a worker is on, its buckets stay. */
  lemma StaysPut(c: Config, s: Sys, a: SysAction, s': Sys, model: Model, w: WorkerId)
    requires SysOk(c, s, model) && SysStep(c, s, a, s') && Enabled(s, w)
    ensures EventualOf(s.store, w).current && w !in EventualOf(s.store, w).affected
    ensures StoreAction(s, a).Some? ==> !MovesBuckets(StoreAction(s, a).value, w)
  {
    WhileEnabled(c, s, model, w);
    NotWhileDraining(c, s, a, s', model);
    assert a.State? ==> Due(s.store, a.a);
  }

  /** Only the end of a call ends the migration. */
  lemma EnabledStep(c: Config, t: Store, a: Action, t': Store, w: WorkerId)
    requires Step(c, t, a, t') && CountsOk(c, t, w) && !(a.SetMeta? && a.w == w)
    ensures EventualOf(t', w).enabled ==>
            EventualOf(t, w).enabled && EventualOf(t, w).finished <= EventualOf(t', w).finished
    ensures EventualOf(t, w).enabled && !EventualOf(t', w).enabled ==> a.EndScan? && a.w == w
    ensures EventualOf(t, w).done <= EventualOf(t', w).done && EventualOf(t', w).affected == EventualOf(t, w).affected
  {
    if a.w != w || !Managing(a) {
      EventualSame(c, t, a, t', w);
    } else {
      match a
      case StartScan(_, x, keys, fin, all) => StartedScans(t, w, x, keys, fin, all);
      case EndScan(_, x) =>
        EndedScans(t, w, x);
        CountDoneOk(EventualOf(t, w), SessionOf(t.sessions, w).scans, x);
      case _ =>
    }
  }

  lemma EnabledSysStep(c: Config, s: Sys, a: SysAction, s': Sys, model: Model, w: WorkerId)
    requires SysOk(c, s, model) && SysStep(c, s, a, s') && !ToWorker(a, w)
    ensures Enabled(s', w) ==> Enabled(s, w) && EventualOf(s.store, w).finished <= EventualOf(s'.store, w).finished
    ensures Enabled(s, w) && !Enabled(s', w) ==> a.State? && a.a.EndScan? && a.a.w == w
    ensures EventualOf(s.store, w).done <= EventualOf(s'.store, w).done
    ensures EventualOf(s'.store, w).affected == EventualOf(s.store, w).affected
  {
    assert WorkerEventualOk(c, s, w);
    StoreStep(c, s, a, s');
    if s'.store != s.store { EnabledStep(c, s.store, StoreAction(s, a).value, s'.store, w); }
  }

  lemma MessageStarts(c: Config, s: Sys, a: SysAction, s': Sys, model: Model)
    requires ValidConfig(c) && SysOk(c, s, model) && SysStep(c, s, a, s') && a.Message?
    ensures EventualOf(s'.store, a.w) == Eventual(a.affected, {}, {}, |a.affected|, true, true)
    ensures s'.store.maps == s.store.maps && SessionOf(s'.store.sessions, a.w).scans == map[]
  {
    MessageStepProceeds(c, s, a.w, a.affected, s');
  }

  lemma EnabledNext(c: Config, trace: seq<Sys>, acts: seq<SysAction>, i: nat, w: WorkerId)
    requires IsSysRun(c, trace, acts) && i < |acts| && !ToWorker(acts[i], w)
    ensures Enabled(trace[i + 1], w) ==>
              Enabled(trace[i], w)
              && EventualOf(trace[i].store, w).finished <= EventualOf(trace[i + 1].store, w).finished
    ensures Enabled(trace[i], w) && !Enabled(trace[i + 1], w) ==>
              acts[i].State? && acts[i].a.EndScan? && acts[i].a.w == w
  {
    SysRunOk(c, trace, acts, i);
    assert StepAt(c, trace, acts, i);
    EnabledSysStep(c, trace[i], acts[i], trace[i + 1], ModelAt(acts, i), w);
  }

  lemma EnabledFirst(c: Config, trace: seq<Sys>, acts: seq<SysAction>, m: nat)
    requires IsSysRun(c, trace, acts) && m < |acts| && acts[m].Message?
    ensures Enabled(trace[m + 1], acts[m].w)
  {
    SysRunOk(c, trace, acts, m);
    assert StepAt(c, trace, acts, m);
    MessageStarts(c, trace[m], acts[m], trace[m + 1], ModelAt(acts, m));
  }

  // --------------------------------------------------------------- signals

  predicate NoMessage(acts: seq<SysAction>, i: nat, j: nat, w: WorkerId)
    requires j <= |acts|
  {
    forall m | i <= m < j :: !ToWorker(acts[m], w)
  }

  /** How often the end of the migration of w is signalled. */
  ghost function Signals(trace: seq<Sys>, i: nat, j: nat, w: WorkerId): nat
    requires i <= j < |trace|
  {
    if i == j then 0
    else Signals(trace, i, j - 1, w) + if Enabled(trace[j - 1], w) && !Enabled(trace[j], w) then 1 else 0
  }

  lemma {:induction false} SignalsSince(c: Config, trace: seq<Sys>, acts: seq<SysAction>, i: nat, j: nat, w: WorkerId)
    requires IsSysRun(c, trace, acts) && i <= j < |trace| && NoMessage(acts, i, j, w) && Enabled(trace[i], w)
    ensures Signals(trace, i, j, w) == if Enabled(trace[j], w) then 0 else 1
    ensures Enabled(trace[j], w) ==> EventualOf(trace[i].store, w).finished <= EventualOf(trace[j].store, w).finished
    decreases j
  {
    if i < j {
      SignalsSince(c, trace, acts, i, j - 1, w);
      EnabledNext(c, trace, acts, j - 1, w);
    }
  }

  /** After a message to w, and until the next one, the end is signalled once and
      for all, by the call that counts the last cancelling worker, and finished
      buckets stay finished until then. */
  lemma SignalsOnce(c: Config, trace: seq<Sys>, acts: seq<SysAction>, m: nat, i: nat, j: nat)
    requires IsSysRun(c, trace, acts) && m < i <= j < |trace| && acts[m].Message?
    requires NoMessage(acts, m + 1, j, acts[m].w)
    ensures var w := acts[m].w;
            && Signals(trace, m + 1, j, w) == (if Enabled(trace[j], w) then 0 else 1)
            && (Enabled(trace[j], w) ==>
                  && Enabled(trace[i], w)
                  && EventualOf(trace[i].store, w).finished <= EventualOf(trace[j].store, w).finished)
            && (i < j && Enabled(trace[i], w) && !Enabled(trace[i + 1], w) ==>
                  acts[i].State? && acts[i].a.EndScan? && acts[i].a.w == w)
  {
    var w := acts[m].w;
    EnabledFirst(c, trace, acts, m);
    SignalsSince(c, trace, acts, m + 1, j, w);
    StaysEnabled(c, trace, acts, i, j, w);
    if i < j { EnabledNext(c, trace, acts, i, w); }
  }

  lemma {:induction false} StaysEnabled(c: Config, trace: seq<Sys>, acts: seq<SysAction>, i: nat, j: nat, w: WorkerId)
    requires IsSysRun(c, trace, acts) && i <= j < |trace| && NoMessage(acts, i, j, w)
    ensures Enabled(trace[j], w) ==>
              Enabled(trace[i], w) && EventualOf(trace[i].store, w).finished <= EventualOf(trace[j].store, w).finished
    decreases j
  {
    if i < j {
      StaysEnabled(c, trace, acts, i, j - 1, w);
      EnabledNext(c, trace, acts, j - 1, w);
    }
  }

  // ----------------------------------------------------------- termination

  /** A call for x is running and will not be the last one. */
  ghost predicate InCall(s: Sys, w: WorkerId, x: WorkerId) {
    var scans := SessionOf(s.store.sessions, w).scans;
    x in scans && scans[x].Running? && !scans[x].allDone
  }

  /** n calls stopped early so far and r calls have returned; each of the n took
      its keys off the size there was to begin with. */
  ghost predicate CallsOk(c: Config, s: Sys, w: WorkerId, x: WorkerId, n: nat, r: nat, size: nat) {
    && n * c.maxKeys + (if Enabled(s, w) then |Left(s.store, w, x)| else 0) <= size
    && (c.maxKeys <= 0 ==> n == 0)
    && (x !in EventualOf(s.store, w).done ==> r + (if InCall(s, w, x) then 1 else 0) <= n)
  }

  lemma OneMore(n: nat, k: int)
    ensures (n + 1) * k == n * k + k
  {
  }

  lemma SizeLess(a: set<Key>, keys: set<Key>)
    requires keys <= a
    ensures |a - keys| == |a| - |keys|
  {
    assert a == (a - keys) + keys;
  }

  /** A call that starts. */
  lemma CallStarts(c: Config, s: Sys, a: Action, s': Sys, w: WorkerId, x: WorkerId, n: nat, r: nat, size: nat)
    requires a.StartScan? && a.w == w && a.c == x && Step(c, s.store, a, s'.store)
    requires CallsOk(c, s, w, x, n, r, size)
    ensures CallsOk(c, s', w, x, n + if a.allDone then 0 else 1, r, size)
  {
    LeftAtStart(c, s.store, a, s'.store);
    SizeLess(Left(s.store, w, x), a.keys);
    StartedScans(s.store, w, x, a.keys, a.finished, a.allDone);
    OneMore(n, c.maxKeys);
  }

  /** A call that returns. */
  lemma CallReturns(c: Config, s: Sys, a: Action, s': Sys, w: WorkerId, x: WorkerId, n: nat, r: nat, size: nat)
    requires a == EndScan(w, x) && Step(c, s.store, a, s'.store) && WorkerEventualOk(c, s, w)
    requires CallsOk(c, s, w, x, n, r, size) && (Enabled(s, w) ==> EventualOf(s.store, w).current)
    ensures CallsOk(c, s', w, x, n, r + 1, size)
  {
    EndedScans(s.store, w, x);
    CountDoneOk(EventualOf(s.store, w), SessionOf(s.store.sessions, w).scans, x);
    if Enabled(s, w) { LeftAtEnd(c, s.store, a, s'.store); }
    EnabledStep(c, s.store, a, s'.store, w);
  }

  lemma InCallSame(c: Config, t: Store, a: Action, t': Store, w: WorkerId, x: WorkerId)
    requires Step(c, t, a, t') && !(a.w == w && (a.StartScan? || a.EndScan?) && a.c == x)
    ensures var scans, scans' := SessionOf(t.sessions, w).scans, SessionOf(t'.sessions, w).scans;
            x in scans' && scans'[x].Running? ==> x in scans && scans'[x] == scans[x]
  {
    if a.w != w || !Managing(a) {
      EventualSame(c, t, a, t', w);
    } else {
      match a
      case Begin(_, keys) => BegunScans(c, t, w, keys);
      case StartScan(_, y, keys, fin, all) => StartedScans(t, w, y, keys, fin, all);
      case EndScan(_, y) => EndedScans(t, w, y);
      case _ =>
    }
  }

  /** Any other step of the state. */
  lemma CallsElsewhere(c: Config, s: Sys, a: Action, s': Sys, w: WorkerId, x: WorkerId, n: nat, r: nat, size: nat)
    requires Step(c, s.store, a, s'.store) && !(a.w == w && (a.StartScan? || a.EndScan?) && a.c == x)
    requires !(a.SetMeta? && a.w == w) && WorkerEventualOk(c, s, w)
    requires Enabled(s, w) ==>
               EventualOf(s.store, w).current && w !in EventualOf(s.store, w).affected && !MovesBuckets(a, w)
    requires CallsOk(c, s, w, x, n, r, size)
    ensures CallsOk(c, s', w, x, n, r, size)
  {
    EnabledStep(c, s.store, a, s'.store, w);
    InCallSame(c, s.store, a, s'.store, w, x);
    if Enabled(s', w) {
      LeftStep(c, s.store, a, s'.store, w, x);
      SubsetSize(Left(s'.store, w, x), Left(s.store, w, x));
    }
  }

  lemma CallsStoreStep(c: Config, s: Sys, y: Action, s': Sys, w: WorkerId, x: WorkerId, n: nat, r: nat, size: nat)
    requires Step(c, s.store, y, s'.store) && !(y.SetMeta? && y.w == w) && WorkerEventualOk(c, s, w)
    requires Enabled(s, w) ==>
               EventualOf(s.store, w).current && w !in EventualOf(s.store, w).affected && !MovesBuckets(y, w)
    requires CallsOk(c, s, w, x, n, r, size)
    ensures CallsOk(c, s', w, x, n + (if StopsEarly(State(y), w, x) then 1 else 0),
                    r + (if Returns(State(y), w, x) then 1 else 0), size)
  {
    if y.StartScan? && y.w == w && y.c == x {
      CallStarts(c, s, y, s', w, x, n, r, size);
    } else if y == EndScan(w, x) {
      CallReturns(c, s, y, s', w, x, n, r, size);
    } else {
      CallsElsewhere(c, s, y, s', w, x, n, r, size);
    }
  }

  /** The start and the end of a call are visible in the state. */
  lemma ScansChange(c: Config, s: Sys, a: SysAction, s': Sys)
    requires SysStep(c, s, a, s') && !s'.aborted && a.State? && (a.a.StartScan? || a.a.EndScan?)
    ensures s'.store != s.store
  {
    match a.a
    case StartScan(w, x, keys, fin, all) => StartedScans(s.store, w, x, keys, fin, all);
    case EndScan(w, x) => EndedScans(s.store, w, x);
  }

  function EarlyStops(acts: seq<SysAction>, i: nat, j: nat, w: WorkerId, x: WorkerId): nat
    requires i <= j <= |acts|
  {
    if i == j then 0 else EarlyStops(acts, i, j - 1, w, x) + if StopsEarly(acts[j - 1], w, x) then 1 else 0
  }

  function Returned(acts: seq<SysAction>, i: nat, j: nat, w: WorkerId, x: WorkerId): nat
    requires i <= j <= |acts|
  {
    if i == j then 0 else Returned(acts, i, j - 1, w, x) + if Returns(acts[j - 1], w, x) then 1 else 0
  }

  /** The step of the state at j, and what is known of worker w before it. */
  ghost predicate StateStepAt(c: Config, s: Sys, y: Action, s': Sys, w: WorkerId) {
    && Step(c, s.store, y, s'.store) && !(y.SetMeta? && y.w == w)
    && (Enabled(s, w) ==>
          EventualOf(s.store, w).current && w !in EventualOf(s.store, w).affected && !MovesBuckets(y, w))
  }

  lemma MovesState(c: Config, s: Sys, a: SysAction, s': Sys, model: Model, w: WorkerId)
    requires SysOk(c, s, model) && SysStep(c, s, a, s') && !ToWorker(a, w)
    ensures s'.store != s.store ==> StoreAction(s, a).Some? && StateStepAt(c, s, StoreAction(s, a).value, s', w)
  {
    if Enabled(s, w) { StaysPut(c, s, a, s', model, w); }
    StoreStep(c, s, a, s');
  }

  lemma SameAction(s: Sys, a: SysAction, w: WorkerId, x: WorkerId)
    requires StoreAction(s, a).Some?
    ensures StopsEarly(a, w, x) <==> StopsEarly(State(StoreAction(s, a).value), w, x)
    ensures Returns(a, w, x) <==> Returns(State(StoreAction(s, a).value), w, x)
  {
  }

  lemma MovedAt(c: Config, trace: seq<Sys>, acts: seq<SysAction>, j: nat, w: WorkerId)
    requires IsSysRun(c, trace, acts) && j < |acts| && !ToWorker(acts[j], w)
    ensures WorkerEventualOk(c, trace[j], w)
    ensures trace[j + 1].store != trace[j].store ==>
              StoreAction(trace[j], acts[j]).Some?
              && StateStepAt(c, trace[j], StoreAction(trace[j], acts[j]).value, trace[j + 1], w)
  {
    SysRunOk(c, trace, acts, j);
    assert WorkerEventualOk(c, trace[j], w) && StepAt(c, trace, acts, j);
    MovesState(c, trace[j], acts[j], trace[j + 1], ModelAt(acts, j), w);
  }

  lemma NoCallUnseen(c: Config, trace: seq<Sys>, acts: seq<SysAction>, j: nat, w: WorkerId, x: WorkerId)
    requires IsSysRun(c, trace, acts) && j < |acts| && !trace[j + 1].aborted && trace[j + 1].store == trace[j].store
    ensures !StopsEarly(acts[j], w, x) && !Returns(acts[j], w, x)
  {
    assert StepAt(c, trace, acts, j);
    if StopsEarly(acts[j], w, x) || Returns(acts[j], w, x) { ScansChange(c, trace[j], acts[j], trace[j + 1]); }
  }

  lemma CallsNext(c: Config, trace: seq<Sys>, acts: seq<SysAction>, j: nat, w: WorkerId, x: WorkerId, n: nat, r: nat,
                  size: nat)
    requires IsSysRun(c, trace, acts) && j < |acts| && !trace[j + 1].aborted && !ToWorker(acts[j], w)
    requires CallsOk(c, trace[j], w, x, n, r, size)
    ensures CallsOk(c, trace[j + 1], w, x, n + (if StopsEarly(acts[j], w, x) then 1 else 0),
                    r + (if Returns(acts[j], w, x) then 1 else 0), size)
  {
    MovedAt(c, trace, acts, j, w);
    if trace[j + 1].store != trace[j].store {
      CallsStoreStep(c, trace[j], StoreAction(trace[j], acts[j]).value, trace[j + 1], w, x, n, r, size);
      SameAction(trace[j], acts[j], w, x);
    } else {
      NoCallUnseen(c, trace, acts, j, w, x);
    }
  }

  lemma CallsFirst(c: Config, trace: seq<Sys>, acts: seq<SysAction>, m: nat, x: WorkerId)
    requires IsSysRun(c, trace, acts) && m < |acts| && acts[m].Message? && x in acts[m].affected
    ensures CallsOk(c, trace[m + 1], acts[m].w, x, 0, 0,
                    |Remaining(trace[m].store.maps, acts[m].w, acts[m].affected[x], x)|)
  {
    SysRunOk(c, trace, acts, m);
    assert StepAt(c, trace, acts, m);
    MessageStarts(c, trace[m], acts[m], trace[m + 1], ModelAt(acts, m));
  }

  lemma NotAborted(c: Config, trace: seq<Sys>, acts: seq<SysAction>, j: nat)
    requires IsSysRun(c, trace, acts) && j < |acts|
    ensures !trace[j].aborted
  {
    assert StepAt(c, trace, acts, j);
  }

  lemma {:induction false} CallsRun(c: Config, trace: seq<Sys>, acts: seq<SysAction>, m: nat, j: nat, x: WorkerId,
                                    size: nat)
    requires IsSysRun(c, trace, acts) && m < j < |trace| && acts[m].Message? && x in acts[m].affected
    requires NoMessage(acts, m + 1, j, acts[m].w) && !trace[j].aborted
    requires size == |Remaining(trace[m].store.maps, acts[m].w, acts[m].affected[x], x)|
    ensures var w := acts[m].w;
            CallsOk(c, trace[j], w, x, EarlyStops(acts, m + 1, j, w, x), Returned(acts, m + 1, j, w, x), size)
    decreases j
  {
    var w := acts[m].w;
    if j == m + 1 {
      CallsFirst(c, trace, acts, m, x);
    } else {
      NotAborted(c, trace, acts, j - 1);
      CallsRun(c, trace, acts, m, j - 1, x, size);
      CallsNext(c, trace, acts, j - 1, w, x, EarlyStops(acts, m + 1, j - 1, w, x), Returned(acts, m + 1, j - 1, w, x),
                size);
    }
  }

  /** Gradual migration terminates: after a message to w, the calls for x that stop
      early are at most the keys listed at x at that moment divided by the batch
      size, and as long as x is not counted no other call has returned. */
  lemma GradualTerminates(c: Config, trace: seq<Sys>, acts: seq<SysAction>, m: nat, j: nat, x: WorkerId)
    requires IsSysRun(c, trace, acts) && m < j < |trace| && acts[m].Message? && x in acts[m].affected
    requires NoMessage(acts, m + 1, j, acts[m].w) && !trace[j].aborted
    ensures var w := acts[m].w;
            var listed := Remaining(trace[m].store.maps, w, acts[m].affected[x], x);
            && EarlyStops(acts, m + 1, j, w, x) * c.maxKeys <= |listed|
            && (c.maxKeys <= 0 ==> EarlyStops(acts, m + 1, j, w, x) == 0)
            && (x !in EventualOf(trace[j].store, w).done ==>
                  Returned(acts, m + 1, j, w, x) <= EarlyStops(acts, m + 1, j, w, x))
  {
    CallsRun(c, trace, acts, m, j, x, |Remaining(trace[m].store.maps, acts[m].w, acts[m].affected[x], x)|);
  }
}

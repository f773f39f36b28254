/**
 Eventual migration off cancelling workers: what the counter, the finished
 buckets and the additional fetches of every worker guarantee.
 */
module EventualMigration {
  import opened Types
  import opened KeyedStore
  import opened StoreInvariant
  import opened StoreRefinement

  /** The entries of worker w's key map of b that point to x. */
  function PointingTo(m: Maps, w: WorkerId, b: Bucket, x: WorkerId): set<Key> {
    set k | k in MapAt(m, w, b) && MapAt(m, w, b)[k] == x
  }

  /** Every key of b still listed at x is on its way to w. */
  ghost predicate Covered(s: Store, w: WorkerId, b: Bucket, x: WorkerId) {
    forall k | k in PointingTo(s.maps, w, b, x) :: k in Pending(s.sessions, w)
  }

  /** ... as a key of the current batch that is already stored at w. */
  ghost predicate CoveredFlushed(s: Store, w: WorkerId, b: Bucket, x: WorkerId) {
    forall k | k in PointingTo(s.maps, w, b, x) ::
      k in Pending(s.sessions, w) && Pending(s.sessions, w)[k].needed && Pending(s.sessions, w)[k].flushed
  }

  /** The counter is the number of cancelling workers not yet counted. */
  ghost predicate CounterOk(ev: Eventual, scans: map<WorkerId, Scan>) {
    && ev.done <= ev.affected.Keys
    && scans.Keys <= ev.affected.Keys
    && ev.remaining == |ev.affected.Keys| - |ev.done|
    && (ev.enabled <==> ev.remaining != 0)
    && (!ev.enabled ==> ev.done == ev.affected.Keys)
  }

  /** A waiting scan has its needed keys on the way; a running one has them
      stored, and has collected all others of the buckets it finished. */
  ghost predicate ScanOk(s: Store, w: WorkerId, x: WorkerId, scan: Scan, affected: seq<Bucket>) {
    match scan
    case Waiting(dup) =>
      forall b, k | b in affected && k in PointingTo(s.maps, w, b, x) && k in dup :: k in Pending(s.sessions, w)
    case Running(keys, allDone) =>
      && (forall k | k in Pending(s.sessions, w) ::
            var g := Pending(s.sessions, w)[k]; g.src == x && g.needed ==> g.flushed)
      && (allDone ==> forall b | b in affected :: Covered(s, w, b, x))
      && (forall b, k | b in affected && k in PointingTo(s.maps, w, b, x) && k in keys :: k in Pending(s.sessions, w))
  }

  ghost predicate CoverageOk(s: Store, w: WorkerId, ev: Eventual, scans: map<WorkerId, Scan>)
    requires ev.done <= ev.affected.Keys && scans.Keys <= ev.affected.Keys
  {
    && (forall x, b | x in ev.affected && b in ev.affected[x] && (x, b) in ev.finished :: Covered(s, w, b, x))
    && (forall x, b | x in ev.done && b in ev.affected[x] :: CoveredFlushed(s, w, b, x))
    && (forall x | x in scans :: ScanOk(s, w, x, scans[x], ev.affected[x]))
  }

  ghost predicate ProgressOk(s: Store, w: WorkerId) {
    var ev, scans := EventualOf(s, w), SessionOf(s.sessions, w).scans;
    CounterOk(ev, scans) && (ev.current ==> CoverageOk(s, w, ev, scans))
  }

  // --------------------------------------------------------- preservation

  /** The entries of w that point elsewhere were there before, and what was
      fetching them still is, at least as far. */
  ghost predicate Onward(s: Store, s': Store, w: WorkerId) {
    forall b: Bucket, x: WorkerId | x != w :: OnwardAt(s, s', w, b, x)
  }

  ghost predicate OnwardAt(s: Store, s': Store, w: WorkerId, b: Bucket, x: WorkerId) {
    forall k | k in PointingTo(s'.maps, w, b, x) ::
      && k in PointingTo(s.maps, w, b, x)
      && (k in Pending(s.sessions, w) ==> KeepsMoving(Pending(s.sessions, w)[k], Lookup(Pending(s'.sessions, w), k)))
  }

  ghost predicate KeepsMoving(g: Migration, g': Option<Migration>) {
    g'.Some? && g'.value.needed == g.needed && g'.value.src == g.src && (g.flushed ==> g'.value.flushed)
  }

  ghost predicate MovesBuckets(a: Action, w: WorkerId) {
    (a.Depart? || a.Install?) && a.w == w
  }

  /** A listed key belongs to the bucket it is listed under. */
  lemma ListedKey(c: Config, s: Store, model: Model, w: WorkerId, b: Bucket, k: Key)
    requires StoreOk(c, s, model) && k in MapAt(s.maps, w, b)
    ensures c.bucketOf(k) == b && HomeOf(c, s.maps, k) == Some(At(w))
    ensures Location(c, s.maps, k) == Some(MapAt(s.maps, w, b)[k])
    ensures KeyOkAt(c, s, k, w)
  {
    assert BucketOk(c, s.maps, b);
    assert KeyOk(c, s, k in model, k);
  }

  predicate MovesMaps(a: Action) {
    a.Depart? || a.Install? || a.Deploy?
  }

  lemma MapsKept(c: Config, s: Store, a: Action, s': Store)
    requires Step(c, s, a, s') && !MovesMaps(a) && !a.Update? && !a.Write?
    ensures s'.maps == s.maps
  {
  }

  lemma MovedRowsOfOthers(c: Config, s: Store, a: Action, s': Store, w: WorkerId, b: Bucket)
    requires Step(c, s, a, s') && MovesMaps(a) && a.w != w
    ensures MapAt(s'.maps, w, b) == MapAt(s.maps, w, b)
  {
  }

  /** Relocations and writes replace one row. */
  lemma OneRow(c: Config, s: Store, a: Action, s': Store)
    requires Step(c, s, a, s') && (a.Update? || a.Write?)
    ensures HasMap(s.maps, a.w, c.bucketOf(a.k))
    ensures var keys := MapAt(s.maps, a.w, c.bucketOf(a.k));
            s'.maps == WithMap(s.maps, a.w, c.bucketOf(a.k),
                               if a.Write? && a.op.Drop? then keys - {a.k} else keys[a.k := a.w])
  {
  }

  lemma RowsOfOthers(c: Config, s: Store, a: Action, s': Store, w: WorkerId, b: Bucket)
    requires Step(c, s, a, s') && (MovesMaps(a) || a.Update? || a.Write?) && a.w != w
    ensures MapAt(s'.maps, w, b) == MapAt(s.maps, w, b)
  {
    if MovesMaps(a) { MovedRowsOfOthers(c, s, a, s', w, b); } else { OneRow(c, s, a, s'); }
  }

  lemma DeployedRow(c: Config, m: Maps, w: WorkerId, newTable: seq<WorkerId>, b: Bucket)
    requires CanDeploy(c, m, w, newTable)
    ensures MapAt(DeployMaps(m, w, newTable), w, b) == MapAt(m, w, b)
  {
    assert (w, b) in m.table ==> b >= |newTable|;
  }

  lemma RowsKept(c: Config, s: Store, a: Action, s': Store, w: WorkerId, b: Bucket)
    requires Step(c, s, a, s') && !MovesBuckets(a, w) && !((a.Update? || a.Write?) && a.w == w)
    ensures MapAt(s'.maps, w, b) == MapAt(s.maps, w, b)
  {
    if !MovesMaps(a) && !a.Update? && !a.Write? {
      MapsKept(c, s, a, s');
    } else if a.w != w {
      RowsOfOthers(c, s, a, s', w, b);
    } else {
      DeployedRow(c, s.maps, w, a.newTable, b);
    }
  }

  lemma RowsChange(c: Config, s: Store, a: Action, s': Store, w: WorkerId, b: Bucket)
    requires Step(c, s, a, s') && (a.Update? || a.Write?) && a.w == w
    ensures forall k | k in MapAt(s'.maps, w, b) ::
              MapAt(s'.maps, w, b)[k] == w ||
                  (k in MapAt(s.maps, w, b) && MapAt(s'.maps, w, b)[k] == MapAt(s.maps, w, b)[k])
  {
    OneRow(c, s, a, s');
  }

  /** Locations only ever change to the local worker. */
  lemma LocationsTurnLocal(c: Config, s: Store, a: Action, s': Store, w: WorkerId, b: Bucket, x: WorkerId)
    requires Step(c, s, a, s') && !MovesBuckets(a, w) && x != w
    ensures PointingTo(s'.maps, w, b, x) <= PointingTo(s.maps, w, b, x)
  {
    if (a.Update? || a.Write?) && a.w == w {
      RowsChange(c, s, a, s', w, b);
    } else {
      RowsKept(c, s, a, s', w, b);
    }
  }

  lemma OtherSessionsManaged(c: Config, s: Store, a: Action, s': Store, w: WorkerId)
    requires Step(c, s, a, s') && a.w != w && Managing(a)
    ensures SessionOf(s'.sessions, w) == SessionOf(s.sessions, w) && EventualOf(s', w) == EventualOf(s, w)
  {
  }

  lemma OtherSessions(c: Config, s: Store, a: Action, s': Store, w: WorkerId)
    requires Step(c, s, a, s') && a.w != w
    ensures SessionOf(s'.sessions, w) == SessionOf(s.sessions, w) && EventualOf(s', w) == EventualOf(s, w)
  {
    if Managing(a) { OtherSessionsManaged(c, s, a, s', w); }
  }

  /** A key stays in the background routines until it is listed locally. */
  lemma MovesOn(c: Config, s: Store, a: Action, s': Store, w: WorkerId, k: Key)
    requires Step(c, s, a, s') && !Starts(a, w) && k in Pending(s.sessions, w)
    requires !Pending(s.sessions, w)[k].updated && a != Update(w, k)
    requires a.StartScan? && a.w == w ==> k !in a.keys
    ensures KeepsMoving(Pending(s.sessions, w)[k], Lookup(Pending(s'.sessions, w), k))
  {
    if a.w != w {
      OtherSessions(c, s, a, s', w);
    } else if a.Fetch? || a.Flush? || a.Update? {
      assert a.k != k ==> Lookup(Pending(s'.sessions, w), k) == Lookup(Pending(s.sessions, w), k);
    } else if a.StartScan? {
      assert Lookup(Pending(s'.sessions, w), k) == Lookup(Pending(s.sessions, w), k);
    } else {
      assert Pending(s'.sessions, w) == Pending(s.sessions, w);
    }
  }

  lemma NotCollected(c: Config, s: Store, a: Action, model: Model, k: Key)
    requires StoreOk(c, s, model) && a.StartScan? && CanStartScan(c, s, a.w, a.c, a.keys, a.finished, a.allDone)
    requires k in a.keys
    ensures k !in Pending(s.sessions, a.w)
  {
    var ev, dup := EventualOf(s, a.w), SessionOf(s.sessions, a.w).scans[a.c].dup;
    var b: Bucket :| b in ev.affected[a.c] && (a.c, b) !in ev.finished && k in Eligible(s, a.w, a.c, dup, b);
    CollectedKey(c, s, model, a.w, a.c, b, k);
  }

  lemma OnwardStep(c: Config, s: Store, a: Action, s': Store, model: Model, w: WorkerId)
    requires StoreOk(c, s, model) && Step(c, s, a, s') && !Starts(a, w) && !MovesBuckets(a, w)
    ensures Onward(s, s', w)
  {
    forall b: Bucket, x: WorkerId | x != w ensures OnwardAt(s, s', w, b, x) {
      LocationsTurnLocal(c, s, a, s', w, b, x);
      forall k | k in PointingTo(s'.maps, w, b, x) && k in Pending(s.sessions, w)
        ensures KeepsMoving(Pending(s.sessions, w)[k], Lookup(Pending(s'.sessions, w), k))
      {
        ListedKey(c, s, model, w, b, k);
        if a.StartScan? && a.w == w && k in a.keys { NotCollected(c, s, a, model, k); }
        MovesOn(c, s, a, s', w, k);
      }
    }
  }

  lemma CountDoneOk(ev: Eventual, scans: map<WorkerId, Scan>, x: WorkerId)
    requires CounterOk(ev, scans) && x in ev.affected
    ensures CounterOk(CountDone(ev, x), scans - {x})
    ensures x in CountDone(ev, x).done && ev.done <= CountDone(ev, x).done <= ev.done + {x}
  {
    if x !in ev.done {
      var done := ev.done + {x};
      SubsetSize(done, ev.affected.Keys);
    }
  }

  lemma CounterStep(c: Config, s: Store, a: Action, s': Store, w: WorkerId)
    requires Step(c, s, a, s')
    requires CounterOk(EventualOf(s, w), SessionOf(s.sessions, w).scans)
    ensures CounterOk(EventualOf(s', w), SessionOf(s'.sessions, w).scans)
  {
    if a.w != w {
      OtherSessions(c, s, a, s', w);
    } else if a.EndScan? {
      CountDoneOk(EventualOf(s, w), SessionOf(s.sessions, w).scans, a.c);
    }
  }

  /** Needed keys only appear when a batch starts. */
  lemma NeededSince(c: Config, s: Store, a: Action, s': Store, w: WorkerId, k: Key)
    requires Step(c, s, a, s') && !Starts(a, w)
    requires k in Pending(s'.sessions, w) && Pending(s'.sessions, w)[k].needed
    ensures k in Pending(s.sessions, w) && KeepsMoving(Pending(s.sessions, w)[k], Lookup(Pending(s'.sessions, w), k))
  {
    if a.w != w {
      OtherSessions(c, s, a, s', w);
    } else if a.Fetch? || a.Flush? || a.Update? {
      assert a.k != k ==> Lookup(Pending(s'.sessions, w), k) == Lookup(Pending(s.sessions, w), k);
    } else if a.StartScan? {
      assert k !in a.keys;
    } else {
      assert Pending(s'.sessions, w) == Pending(s.sessions, w);
    }
  }

  /** Coverage that only depends on entries and routines moving onward. */
  lemma CoverageFrame(c: Config, s: Store, a: Action, s': Store, w: WorkerId, ev: Eventual, scans: map<WorkerId, Scan>)
    requires Step(c, s, a, s') && !Starts(a, w) && Onward(s, s', w) && w !in ev.affected
    requires ev.done <= ev.affected.Keys && scans.Keys <= ev.affected.Keys
    requires CoverageOk(s, w, ev, scans)
    ensures CoverageOk(s', w, ev, scans)
  {
    forall x, b: Bucket | x in ev.affected && b in ev.affected[x]
      ensures Covered(s, w, b, x) ==> Covered(s', w, b, x)
      ensures CoveredFlushed(s, w, b, x) ==> CoveredFlushed(s', w, b, x)
    {
      assert OnwardAt(s, s', w, b, x);
    }
    forall x | x in scans ensures ScanOk(s', w, x, scans[x], ev.affected[x]) {
      assert ScanOk(s, w, x, scans[x], ev.affected[x]);
      forall b: Bucket | b in ev.affected[x] ensures OnwardAt(s, s', w, b, x) {}
      forall k | k in Pending(s'.sessions, w) && Pending(s'.sessions, w)[k].needed
        ensures k in Pending(s.sessions, w)
        ensures KeepsMoving(Pending(s.sessions, w)[k], Lookup(Pending(s'.sessions, w), k))
      { NeededSince(c, s, a, s', w, k); }
    }
  }

  lemma BeginCoverage(c: Config, s: Store, w: WorkerId, keys: set<Key>)
    requires CanBegin(c, s, w, keys) && w !in EventualOf(s, w).affected && ProgressOk(s, w) && EventualOf(s, w).current
    ensures var s' := DoBegin(c, s, w, keys);
            CounterOk(EventualOf(s', w), SessionOf(s'.sessions, w).scans)
            && CoverageOk(s', w, EventualOf(s', w), SessionOf(s'.sessions, w).scans)
  {
    var s' := DoBegin(c, s, w, keys);
    var ev := EventualOf(s, w);
    forall x, b | x in ev.affected && b in ev.affected[x]
      ensures Covered(s, w, b, x) || CoveredFlushed(s, w, b, x) ==> PointingTo(s.maps, w, b, x) == {}
    {}
  }

  /** After a scan, every entry of a finished bucket that points to x is on its
      way: collected now, or needed by the batch. */
  lemma StartScanCovers(c: Config, s: Store, model: Model, w: WorkerId, x: WorkerId, keys: set<Key>,
                        finished: set<(WorkerId, Bucket)>, allDone: bool, b: Bucket)
    requires StoreOk(c, s, model) && ProgressOk(s, w) && EventualOf(s, w).current
    requires CanStartScan(c, s, w, x, keys, finished, allDone)
    requires b in EventualOf(s, w).affected[x] && (x, b) in finished
    ensures Covered(DoStartScan(s, w, x, keys, finished, allDone), w, b, x)
  {
    var s' := DoStartScan(s, w, x, keys, finished, allDone);
    var ev, scans := EventualOf(s, w), SessionOf(s.sessions, w).scans;
    assert ScanOk(s, w, x, scans[x], ev.affected[x]);
    forall k | k in PointingTo(s'.maps, w, b, x) ensures k in Pending(s'.sessions, w) {
      if (x, b) in ev.finished {
        assert Covered(s, w, b, x);
      } else if k !in scans[x].dup {
        assert k in Eligible(s, w, x, scans[x].dup, b);
        assert Eligible(s, w, x, scans[x].dup, (x, b).1) <= keys;
      }
    }
  }

  lemma StartScanCoverage(c: Config, s: Store, model: Model, a: Action, s': Store)
    requires StoreOk(c, s, model) && ProgressOk(s, a.w) && EventualOf(s, a.w).current
    requires a.StartScan? && Step(c, s, a, s')
    ensures ProgressOk(s', a.w)
  {
    CounterStep(c, s, a, s', a.w);
    var w, x, ev, scans := a.w, a.c, EventualOf(s, a.w), SessionOf(s.sessions, a.w).scans;
    OnwardStep(c, s, a, s', model, w);
    CoverageFrame(c, s, a, s', w, ev, scans);
    forall b | b in ev.affected[x] && (x, b) in a.finished ensures Covered(s', w, b, x) {
      StartScanCovers(c, s, model, w, x, a.keys, a.finished, a.allDone, b);
    }
    StartedScanOk(c, s, model, a, s');
  }

  lemma StartedScanOk(c: Config, s: Store, model: Model, a: Action, s': Store)
    requires StoreOk(c, s, model) && a.StartScan? && Step(c, s, a, s')
    requires forall b | b in EventualOf(s, a.w).affected[a.c] && (a.c, b) in a.finished :: Covered(s', a.w, b, a.c)
    ensures ScanOk(s', a.w, a.c, Running(a.keys, a.allDone), EventualOf(s, a.w).affected[a.c])
  {
    var w, x := a.w, a.c;
    forall k | k in Pending(s'.sessions, w) && Pending(s'.sessions, w)[k].src == x && Pending(s'.sessions, w)[k].needed
      ensures Pending(s'.sessions, w)[k].flushed
    {
      NeededSince(c, s, a, s', w, k);
      assert KeyOk(c, s, k in model, k) && KeyOkAt(c, s, k, w);
    }
  }

  /** When a complete scan of x ends, the entries left at x are needed keys of
      the batch that are already stored locally. */
  lemma EndScanCovers(c: Config, s: Store, model: Model, w: WorkerId, x: WorkerId, b: Bucket)
    requires StoreOk(c, s, model) && ProgressOk(s, w) && EventualOf(s, w).current
    requires CanEndScan(s, w, x) && SessionOf(s.sessions, w).scans[x].allDone
    requires b in EventualOf(s, w).affected[x]
    ensures CoveredFlushed(s, w, b, x)
  {
    var ev, scans := EventualOf(s, w), SessionOf(s.sessions, w).scans;
    assert ScanOk(s, w, x, scans[x], ev.affected[x]);
    forall k | k in PointingTo(s.maps, w, b, x)
      ensures k in Pending(s.sessions, w) && Pending(s.sessions, w)[k].needed && Pending(s.sessions, w)[k].flushed
    {
      assert Covered(s, w, b, x);
      ListedKey(c, s, model, w, b, k);
    }
  }

  lemma EndScanCoverage(c: Config, s: Store, model: Model, a: Action, s': Store)
    requires StoreOk(c, s, model) && ProgressOk(s, a.w) && EventualOf(s, a.w).current
    requires a.EndScan? && Step(c, s, a, s')
    ensures ProgressOk(s', a.w)
  {
    CounterStep(c, s, a, s', a.w);
    var w, x, ev, scans := a.w, a.c, EventualOf(s, a.w), SessionOf(s.sessions, a.w).scans;
    OnwardStep(c, s, a, s', model, w);
    CoverageFrame(c, s, a, s', w, ev, scans);
    if scans[x].allDone {
      forall b | b in ev.affected[x] ensures CoveredFlushed(s', w, b, x) {
        EndScanCovers(c, s, model, w, x, b);
        assert OnwardAt(s, s', w, b, x);
      }
    }
  }

  ghost predicate Managing(a: Action) {
    a.Begin? || a.StartScan? || a.EndScan? || a.SetMeta? || a.Depart? || a.Install?
  }

  lemma EventualSame(c: Config, s: Store, a: Action, s': Store, w: WorkerId)
    requires Step(c, s, a, s') && (a.w != w || !Managing(a))
    ensures EventualOf(s', w) == EventualOf(s, w)
    ensures SessionOf(s'.sessions, w).scans == SessionOf(s.sessions, w).scans
  {
    if a.w != w { OtherSessions(c, s, a, s', w); }
  }

  lemma OtherCoverage(c: Config, s: Store, a: Action, s': Store, model: Model, w: WorkerId)
    requires StoreOk(c, s, model) && Step(c, s, a, s') && ProgressOk(s, w) && EventualOf(s, w).current
    requires a.w != w || !Managing(a)
    ensures ProgressOk(s', w)
  {
    CounterStep(c, s, a, s', w);
    EventualSame(c, s, a, s', w);
    OnwardStep(c, s, a, s', model, w);
    CoverageFrame(c, s, a, s', w, EventualOf(s, w), SessionOf(s.sessions, w).scans);
  }

  lemma OutdatedProgress(c: Config, s: Store, a: Action, s': Store)
    requires Step(c, s, a, s') && Managing(a) && ProgressOk(s, a.w)
    requires a.SetMeta? || a.Depart? || a.Install? || !EventualOf(s, a.w).current
    ensures ProgressOk(s', a.w)
  {
    CounterStep(c, s, a, s', a.w);
    if !a.SetMeta? { assert !EventualOf(s', a.w).current; }
  }

  lemma ProgressStep(c: Config, s: Store, a: Action, s': Store, model: Model, w: WorkerId)
    requires StoreOk(c, s, model) && Step(c, s, a, s') && ProgressOk(s, w)
    ensures ProgressOk(s', w)
  {
    if a.w != w || !Managing(a) {
      if EventualOf(s, w).current {
        OtherCoverage(c, s, a, s', model, w);
      } else {
        CounterStep(c, s, a, s', w);
        EventualSame(c, s, a, s', w);
      }
    } else if a.SetMeta? || a.Depart? || a.Install? || !EventualOf(s, w).current {
      OutdatedProgress(c, s, a, s');
    } else if a.Begin? {
      BeginCoverage(c, s, w, a.keys);
    } else if a.StartScan? {
      StartScanCoverage(c, s, model, a, s');
    } else {
      EndScanCoverage(c, s, model, a, s');
    }
  }

  // ------------------------------------------------------------- theorems

  lemma {:induction false} ProgressRun(c: Config, trace: seq<Store>, acts: seq<Action>, i: nat, w: WorkerId)
    requires IsRun(c, trace, acts) && i < |trace|
    ensures ProgressOk(trace[i], w)
  {
    if i > 0 {
      ProgressRun(c, trace, acts, i - 1, w);
      assert RunStep(c, trace, acts, i - 1);
      RunKeeps(c, trace, acts, i - 1);
      ProgressStep(c, trace[i - 1], acts[i - 1], trace[i], ModelAfter(acts[..i - 1]), w);
    }
  }

  /** In every reachable state the counter is the number of cancelling workers
      that have not finished, and migration is on exactly while it is not zero. */
  lemma CounterCounts(c: Config, trace: seq<Store>, acts: seq<Action>, i: nat, w: WorkerId)
    requires IsRun(c, trace, acts) && i < |trace|
    ensures var ev := EventualOf(trace[i], w);
            && ev.done <= ev.affected.Keys
            && ev.remaining == |ev.affected.Keys - ev.done|
            && (ev.enabled <==> ev.done != ev.affected.Keys)
  {
    ProgressRun(c, trace, acts, i, w);
    var ev := EventualOf(trace[i], w);
    assert ev.affected.Keys == ev.done + (ev.affected.Keys - ev.done);
  }

  /** When the counter is zero, whatever is still listed at a cancelling worker
      named in the message is a needed key already stored locally; once the wait
      group is zero, nothing is. */
  lemma MigrationComplete(c: Config, trace: seq<Store>, acts: seq<Action>, i: nat, w: WorkerId, x: WorkerId, b: Bucket)
    requires IsRun(c, trace, acts) && i < |trace|
    requires EventualOf(trace[i], w).current && EventualOf(trace[i], w).remaining == 0
    requires x in EventualOf(trace[i], w).affected && b in EventualOf(trace[i], w).affected[x]
    ensures CoveredFlushed(trace[i], w, b, x)
    ensures Drained(trace[i], w) ==> PointingTo(trace[i].maps, w, b, x) == {}
  {
    ProgressRun(c, trace, acts, i, w);
  }

  // --------------------------------------------------------------- late scans

  /** A scan that has not started when the last cancelling worker is counted. */
  ghost predicate Late(s: Store, w: WorkerId, x: WorkerId) {
    var scans := SessionOf(s.sessions, w).scans;
    x in scans && scans[x].Waiting? && !EventualOf(s, w).enabled
  }

  /** No worker is scanned again after it was counted: one scan is enough for
      each, or there is only one. */
  predicate ScansOnce(c: Config, ev: Eventual) {
    c.maxKeys <= 0 || |ev.affected| <= 1
  }

  ghost predicate ScansOnceOk(c: Config, ev: Eventual, scans: map<WorkerId, Scan>) {
    ScansOnce(c, ev) ==>
      && (if ev.enabled then (scans == map[] && ev.done == {}) || scans.Keys == ev.affected.Keys - ev.done
          else scans == map[])
      && (c.maxKeys <= 0 ==> forall x | x in scans && scans[x].Running? :: scans[x].allDone)
  }

  lemma NoneDone(ev: Eventual, scans: map<WorkerId, Scan>)
    requires CounterOk(ev, scans) && ev.enabled
    ensures ev.affected.Keys - ev.done != {}
    ensures |ev.affected| <= 1 ==> ev.done == {}
  {
    var rest := ev.affected.Keys - ev.done;
    assert ev.affected.Keys == ev.done + rest;
    assert |ev.affected.Keys| == |ev.done| + |rest|;
  }

  lemma ScansOnceEnd(c: Config, ev: Eventual, scans: map<WorkerId, Scan>, x: WorkerId)
    requires CounterOk(ev, scans) && ScansOnceOk(c, ev, scans) && x in scans && scans[x].Running?
    ensures ScansOnceOk(c, if scans[x].allDone then CountDone(ev, x) else ev, scans - {x})
  {
    var ev' := if scans[x].allDone then CountDone(ev, x) else ev;
    if ScansOnce(c, ev') && ev.enabled {
      NoneDone(ev, scans);
      CountDoneOk(ev, scans, x);
      SubsetSize(scans.Keys, ev.affected.Keys);
      SubsetSize({x}, scans.Keys);
      if |ev.affected| <= 1 { SubsetSize({x}, ev.affected.Keys); }
    }
  }

  lemma ScansOnceStep(c: Config, s: Store, a: Action, s': Store, w: WorkerId)
    requires Step(c, s, a, s') && CounterOk(EventualOf(s, w), SessionOf(s.sessions, w).scans)
    requires ScansOnceOk(c, EventualOf(s, w), SessionOf(s.sessions, w).scans)
    ensures ScansOnceOk(c, EventualOf(s', w), SessionOf(s'.sessions, w).scans)
  {
    var ev, scans := EventualOf(s, w), SessionOf(s.sessions, w).scans;
    if a.w != w || !Managing(a) {
      EventualSame(c, s, a, s', w);
    } else {
      ScansOnceManaged(c, s, a, s');
    }
  }

  lemma BegunScans(c: Config, s: Store, w: WorkerId, keys: set<Key>)
    requires CanBegin(c, s, w, keys)
    ensures var s' := DoBegin(c, s, w, keys);
            var ev, scans' := EventualOf(s, w), SessionOf(s'.sessions, w).scans;
            && EventualOf(s', w) == ev && SessionOf(s.sessions, w).scans == map[]
            && scans'.Keys == (if ev.enabled then ev.affected.Keys else {})
            && forall x | x in scans' :: scans'[x].Waiting?
  {
  }

  lemma StartedScans(s: Store, w: WorkerId, x: WorkerId, keys: set<Key>, finished: set<(WorkerId, Bucket)>,
                     allDone: bool)
    ensures var s' := DoStartScan(s, w, x, keys, finished, allDone);
            && EventualOf(s', w) == EventualOf(s, w).(finished := finished)
            && SessionOf(s'.sessions, w).scans == SessionOf(s.sessions, w).scans[x := Running(keys, allDone)]
  {
  }

  lemma EndedScans(s: Store, w: WorkerId, x: WorkerId)
    requires CanEndScan(s, w, x)
    ensures var s', ev, scans := DoEndScan(s, w, x), EventualOf(s, w), SessionOf(s.sessions, w).scans;
            && EventualOf(s', w) == (if scans[x].allDone then CountDone(ev, x) else ev)
            && SessionOf(s'.sessions, w).scans == scans - {x}
  {
  }

  lemma ScansOnceBegin(c: Config, ev: Eventual, scans': map<WorkerId, Scan>)
    requires CounterOk(ev, map[]) && ScansOnceOk(c, ev, map[])
    requires scans'.Keys == (if ev.enabled then ev.affected.Keys else {})
    requires forall x | x in scans' :: scans'[x].Waiting?
    ensures ScansOnceOk(c, ev, scans')
  {
    if ev.enabled { NoneDone(ev, map[]); }
  }

  lemma ScansOnceStart(c: Config, ev: Eventual, scans: map<WorkerId, Scan>, x: WorkerId, keys: set<Key>,
                       finished: set<(WorkerId, Bucket)>, allDone: bool)
    requires ScansOnceOk(c, ev, scans) && x in scans && (c.maxKeys <= 0 ==> allDone)
    ensures ScansOnceOk(c, ev.(finished := finished), scans[x := Running(keys, allDone)])
  {
    assert scans[x := Running(keys, allDone)].Keys == scans.Keys;
  }

  lemma ScansOnceManaged(c: Config, s: Store, a: Action, s': Store)
    requires Step(c, s, a, s') && Managing(a) && CounterOk(EventualOf(s, a.w), SessionOf(s.sessions, a.w).scans)
    requires ScansOnceOk(c, EventualOf(s, a.w), SessionOf(s.sessions, a.w).scans)
    ensures ScansOnceOk(c, EventualOf(s', a.w), SessionOf(s'.sessions, a.w).scans)
  {
    var ev, scans := EventualOf(s, a.w), SessionOf(s.sessions, a.w).scans;
    match a
    case EndScan(w, x) =>
      EndedScans(s, w, x);
      ScansOnceEnd(c, ev, scans, x);
    case Begin(w, keys) =>
      BegunScans(c, s, w, keys);
      ScansOnceBegin(c, ev, SessionOf(s'.sessions, w).scans);
    case StartScan(w, x, keys, fin, all) =>
      StartedScans(s, w, x, keys, fin, all);
      ScansOnceStart(c, ev, scans, x, keys, fin, all);
    case _ =>
  }

  ghost predicate CountsOk(c: Config, s: Store, w: WorkerId) {
    var ev, scans := EventualOf(s, w), SessionOf(s.sessions, w).scans;
    CounterOk(ev, scans) && ScansOnceOk(c, ev, scans)
  }

  lemma CountsStep(c: Config, s: Store, a: Action, s': Store, w: WorkerId)
    requires Step(c, s, a, s') && CountsOk(c, s, w)
    ensures CountsOk(c, s', w)
  {
    CounterStep(c, s, a, s', w);
    ScansOnceStep(c, s, a, s', w);
  }

  lemma {:induction false} CountsRun(c: Config, trace: seq<Store>, acts: seq<Action>, i: nat, w: WorkerId)
    requires IsRun(c, trace, acts) && i < |trace|
    ensures CountsOk(c, trace[i], w)
  {
    if i > 0 {
      CountsRun(c, trace, acts, i - 1, w);
      assert RunStep(c, trace, acts, i - 1);
      CountsStep(c, trace[i - 1], acts[i - 1], trace[i], w);
    }
  }

  lemma LateScanNeeds(c: Config, s: Store, w: WorkerId, x: WorkerId)
    requires CountsOk(c, s, w) && Late(s, w, x)
    ensures x in EventualOf(s, w).done && c.maxKeys > 0 && |EventualOf(s, w).affected| >= 2
  {
  }

  /** A late scan is one of a worker that was counted before. It takes a positive
      batch size and a message with at least two cancelling workers. */
  lemma LateScanOnlyIf(c: Config, trace: seq<Store>, acts: seq<Action>, i: nat, w: WorkerId, x: WorkerId)
    requires IsRun(c, trace, acts) && i < |trace| && Late(trace[i], w, x)
    ensures x in EventualOf(trace[i], w).done && c.maxKeys > 0 && |EventualOf(trace[i], w).affected| >= 2
  {
    CountsRun(c, trace, acts, i, w);
    LateScanNeeds(c, trace[i], w, x);
  }

  // ------------------------------------------------- counted workers are done

  /** Nothing of an affected bucket is still to be fetched from a counted worker. */
  ghost predicate SourceDone(c: Config, s: Store, w: WorkerId) {
    var ev := EventualOf(s, w);
    ev.current ==> forall k: Key | k in Pending(s.sessions, w) :: SourceDoneAt(c, ev, Pending(s.sessions, w)[k], k)
  }

  ghost predicate SourceDoneAt(c: Config, ev: Eventual, g: Migration, k: Key) {
    g.src in ev.done && g.src in ev.affected && c.bucketOf(k) in ev.affected[g.src] ==> g.flushed
  }

  /** Keys of an affected bucket that are collected or asked for again are not at
      a counted worker. */
  lemma NotAtDone(c: Config, s: Store, model: Model, w: WorkerId, x: WorkerId, k: Key)
    requires StoreOk(c, s, model) && ProgressOk(s, w) && EventualOf(s, w).current
    requires x in EventualOf(s, w).done && x in EventualOf(s, w).affected
    requires c.bucketOf(k) in EventualOf(s, w).affected[x]
    requires k !in Pending(s.sessions, w)
    ensures k !in PointingTo(s.maps, w, c.bucketOf(k), x)
  {
    assert CoveredFlushed(s, w, c.bucketOf(k), x);
  }

  lemma SourceDoneBegin(c: Config, s: Store, model: Model, w: WorkerId, keys: set<Key>)
    requires ValidConfig(c) && StoreOk(c, s, model) && ProgressOk(s, w) && CanBegin(c, s, w, keys)
    ensures SourceDone(c, DoBegin(c, s, w, keys), w)
  {
    var s', ev := DoBegin(c, s, w, keys), EventualOf(s, w);
    if ev.current {
      forall k: Key | k in Pending(s'.sessions, w) ensures SourceDoneAt(c, ev, Pending(s'.sessions, w)[k], k) {
        var x := Pending(s'.sessions, w)[k].src;
        GroupedRemoteIsListed(c, s, model, w, k);
        assert k in PointingTo(s.maps, w, c.bucketOf(k), x);
        if x in ev.done && x in ev.affected && c.bucketOf(k) in ev.affected[x] { NotAtDone(c, s, model, w, x, k); }
      }
    }
  }

  lemma SourceDoneScan(c: Config, s: Store, model: Model, a: Action, s': Store)
    requires StoreOk(c, s, model) && ProgressOk(s, a.w) && a.StartScan? && Step(c, s, a, s') && SourceDone(c, s, a.w)
    ensures SourceDone(c, s', a.w)
  {
    var w, ev := a.w, EventualOf(s, a.w);
    var ses := SessionOf(s.sessions, w);
    if ev.current {
      forall k: Key | k in Pending(s'.sessions, w) ensures SourceDoneAt(c, ev, Pending(s'.sessions, w)[k], k) {
        if k in a.keys {
          var dup := ses.scans[a.c].dup;
          var b: Bucket :| b in ev.affected[a.c] && (a.c, b) !in ev.finished && k in Eligible(s, w, a.c, dup, b);
          CollectedKey(c, s, model, w, a.c, b, k);
          assert k in PointingTo(s.maps, w, b, a.c);
          if a.c in ev.done { NotAtDone(c, s, model, w, a.c, k); }
        } else {
          assert SourceDoneAt(c, ev, Pending(s.sessions, w)[k], k);
        }
      }
    }
  }

  lemma SourceDoneEnd(c: Config, s: Store, model: Model, a: Action, s': Store)
    requires StoreOk(c, s, model) && ProgressOk(s, a.w) && a.EndScan? && Step(c, s, a, s') && SourceDone(c, s, a.w)
    ensures SourceDone(c, s', a.w)
  {
    var w, x, ev, ev' := a.w, a.c, EventualOf(s, a.w), EventualOf(s', a.w);
    if ev.current {
      assert ScanOk(s, w, x, SessionOf(s.sessions, w).scans[x], ev.affected[x]);
      forall k: Key | k in Pending(s'.sessions, w) ensures SourceDoneAt(c, ev', Pending(s'.sessions, w)[k], k) {
        assert SourceDoneAt(c, ev, Pending(s.sessions, w)[k], k);
        assert KeyOk(c, s, k in model, k) && KeyOkAt(c, s, k, w);
      }
    }
  }

  lemma SourceDoneMove(c: Config, s: Store, a: Action, s': Store)
    requires Step(c, s, a, s') && (a.Fetch? || a.Flush? || a.Update?) && SourceDone(c, s, a.w)
    ensures SourceDone(c, s', a.w)
  {
    var w, ev := a.w, EventualOf(s, a.w);
    if ev.current {
      forall k: Key | k in Pending(s'.sessions, w) ensures SourceDoneAt(c, ev, Pending(s'.sessions, w)[k], k) {
        assert SourceDoneAt(c, ev, Pending(s.sessions, w)[k], k);
      }
    }
  }

  lemma SourceDoneSame(c: Config, s: Store, s': Store, w: WorkerId)
    requires SourceDone(c, s, w) && EventualOf(s', w) == EventualOf(s, w)
    requires Pending(s'.sessions, w) == Pending(s.sessions, w)
    ensures SourceDone(c, s', w)
  {
  }

  lemma SourceDoneStep(c: Config, s: Store, a: Action, s': Store, model: Model, w: WorkerId)
    requires ValidConfig(c) && StoreOk(c, s, model) && Step(c, s, a, s') && ProgressOk(s, w) && SourceDone(c, s, w)
    ensures SourceDone(c, s', w)
  {
    if a.w != w {
      OtherSessions(c, s, a, s', w);
      SourceDoneSame(c, s, s', w);
    } else if a.Begin? {
      SourceDoneBegin(c, s, model, w, a.keys);
    } else if a.StartScan? {
      SourceDoneScan(c, s, model, a, s');
    } else if a.EndScan? {
      SourceDoneEnd(c, s, model, a, s');
    } else if a.Fetch? || a.Flush? || a.Update? {
      SourceDoneMove(c, s, a, s');
    } else if a.SetMeta? || a.Depart? || a.Install? {
      assert !EventualOf(s', w).current || EventualOf(s', w).done == {};
    } else {
      EventualSame(c, s, a, s', w);
      SourceDoneSame(c, s, s', w);
    }
  }

  // ----------------------------------------------------- gradual progress

  /** All entries of the affected buckets that point to x. */
  function Remaining(m: Maps, w: WorkerId, buckets: seq<Bucket>, x: WorkerId): set<Key> {
    set b, k | b in buckets && k in PointingTo(m, w, b, x) :: k
  }

  /** What is left to collect for x: a running call has taken its keys. */
  function Left(s: Store, w: WorkerId, x: WorkerId): set<Key> {
    var ev, scans := EventualOf(s, w), SessionOf(s.sessions, w).scans;
    (if x in ev.affected then Remaining(s.maps, w, ev.affected[x], x) else {})
    - (if x in scans && scans[x].Running? then scans[x].keys else {})
  }

  lemma RemainingShrinks(c: Config, s: Store, a: Action, s': Store, w: WorkerId, buckets: seq<Bucket>, x: WorkerId)
    requires Step(c, s, a, s') && !MovesBuckets(a, w) && x != w
    ensures Remaining(s'.maps, w, buckets, x) <= Remaining(s.maps, w, buckets, x)
  {
    forall k | k in Remaining(s'.maps, w, buckets, x) ensures k in Remaining(s.maps, w, buckets, x) {
      var b :| b in buckets && k in PointingTo(s'.maps, w, b, x);
      LocationsTurnLocal(c, s, a, s', w, b, x);
    }
  }

  lemma LeftAtStart(c: Config, s: Store, a: Action, s': Store)
    requires a.StartScan? && Step(c, s, a, s')
    ensures a.keys <= Left(s, a.w, a.c) && Left(s', a.w, a.c) == Left(s, a.w, a.c) - a.keys
    ensures !a.allDone ==> c.maxKeys > 0 && |a.keys| == c.maxKeys
  {
    var ev := EventualOf(s, a.w);
    forall k | k in a.keys ensures k in Remaining(s.maps, a.w, ev.affected[a.c], a.c) {
      var dup := SessionOf(s.sessions, a.w).scans[a.c].dup;
      var b :| b in ev.affected[a.c] && (a.c, b) !in ev.finished && k in Eligible(s, a.w, a.c, dup, b);
      assert k in PointingTo(s.maps, a.w, b, a.c);
    }
  }

  /** When a call returns, what it collected has left x. */
  lemma LeftAtEnd(c: Config, s: Store, a: Action, s': Store)
    requires a.EndScan? && Step(c, s, a, s') && ProgressOk(s, a.w) && EventualOf(s, a.w).current
    ensures Left(s', a.w, a.c) == Left(s, a.w, a.c)
  {
    var ev, scan := EventualOf(s, a.w), SessionOf(s.sessions, a.w).scans[a.c];
    assert ScanOk(s, a.w, a.c, scan, ev.affected[a.c]);
    forall k | k in Remaining(s.maps, a.w, ev.affected[a.c], a.c) ensures k !in scan.keys {
      var b :| b in ev.affected[a.c] && k in PointingTo(s.maps, a.w, b, a.c);
    }
  }

  lemma LeftAtBegin(c: Config, s: Store, w: WorkerId, keys: set<Key>, x: WorkerId)
    requires CanBegin(c, s, w, keys)
    ensures Left(DoBegin(c, s, w, keys), w, x) == Left(s, w, x)
  {
    BegunScans(c, s, w, keys);
  }

  /** Calls for other workers change nothing for x. */
  lemma LeftElsewhere(c: Config, s: Store, a: Action, s': Store, x: WorkerId)
    requires Step(c, s, a, s') && (a.StartScan? || a.EndScan?) && a.c != x
    ensures Left(s', a.w, x) == Left(s, a.w, x)
  {
    match a
    case StartScan(w, y, keys, fin, all) => StartedScans(s, w, y, keys, fin, all);
    case EndScan(w, y) => EndedScans(s, w, y);
  }

  /** Gradual progress: every call takes its keys off what is left, and nothing is
      ever added while the buckets of the worker stay. */
  lemma LeftStep(c: Config, s: Store, a: Action, s': Store, w: WorkerId, x: WorkerId)
    requires Step(c, s, a, s') && ProgressOk(s, w) && EventualOf(s, w).current && w !in EventualOf(s, w).affected
    requires !MovesBuckets(a, w) && !(a.SetMeta? && a.w == w)
    ensures Left(s', w, x) <= Left(s, w, x)
  {
    if a.w != w || !Managing(a) {
      var ev := EventualOf(s, w);
      if x in ev.affected { RemainingShrinks(c, s, a, s', w, ev.affected[x], x); }
      EventualSame(c, s, a, s', w);
    } else if a.Begin? {
      LeftAtBegin(c, s, w, a.keys, x);
    } else if a.c != x {
      LeftElsewhere(c, s, a, s', x);
    } else if a.StartScan? {
      LeftAtStart(c, s, a, s');
    } else {
      LeftAtEnd(c, s, a, s');
    }
  }
}

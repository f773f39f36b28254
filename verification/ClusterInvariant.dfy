/**
 Every step of the whole system keeps its invariant, and the steps at which a
 worker takes a fatal exit are known exactly.
 */
module ClusterInvariant {
  import opened Types
  import opened KeyedStore
  import opened StoreInvariant
  import opened StoreRefinement
  import opened EventualMigration
  import opened RecordFlow
  import opened FlowProperties
  import opened Cluster

  function SysModelStep(model: Model, a: SysAction): Model {
    if a.State? then ModelStep(model, a.a) else model
  }

  // ------------------------------------------------------ no fatal exits

  lemma Proceeds(c: Config, s: Sys, a: Action, s': Sys, t: Store)
    requires Try(c, s, a, s') && Step(c, s.store, a, t)
    ensures Step(c, s.store, a, s'.store) && s'.aborted == s.aborted
  {
  }

  lemma BatchProceeds(c: Config, s: Sys, model: Model, w: WorkerId, keys: set<Key>)
    requires ValidConfig(c) && StoreOk(c, s.store, model) && Coupled(c, s) && HandsOk(s)
    requires SessionOf(s.store.sessions, w).batch == None && Drained(s.store, w)
    requires forall k | k in keys :: c.bucketOf(k) in Hand(s, w)
    ensures CanBegin(c, s.store, w, keys)
  {
    forall k: Key | k in keys
      ensures HasMap(s.store.maps, w, c.bucketOf(k)) && Lookup(s.store.maps.home, c.bucketOf(k)) == Some(At(w))
    {
      assert c.bucketOf(k) in Hand(s, w);
      HomeHasMap(c, s.store.maps, w, c.bucketOf(k));
    }
  }

  lemma HomeHasMap(c: Config, m: Maps, w: WorkerId, b: Bucket)
    requires TablesOk(c, m) && b < c.numBuckets && Lookup(m.home, b) == Some(At(w))
    ensures HasMap(m, w, b)
  {
    assert BucketOk(c, m, b);
  }

  lemma DeployProceeds(c: Config, s: Sys, w: WorkerId)
    requires Coupled(c, s) && FlowOk(s.flow) && CanDeployTask(s.flow, w)
    ensures CanDeploy(c, s.store.maps, w, s.flow.next)
  {
    forall b | 0 <= b < c.numBuckets ensures (w, b) !in s.store.maps.table { assert OwnerOk(s, w, b); }
  }

  /** What a sender of the protocol gives away is what its table says is its own
      and has a new owner. */
  lemma HandsOverMoved(c: Config, s: Sys, w: WorkerId, b: Bucket)
    requires Coupled(c, s) && FlowOk(s.flow) && CanSendMaps(s.flow, w) && b < c.numBuckets
    requires forall b: Bucket | b < c.numBuckets :: BucketOk(c, s.store.maps, b)
    ensures Moves(s.store.maps, w, s.flow.next, b) <==> s.flow.table[b] == w && s.flow.next[b] != w
    ensures s.flow.table[b] == w && s.flow.next[b] != w ==>
              && HasMap(s.store.maps, w, b) && Lookup(s.store.maps.home, b) == Some(At(w))
              && (s.flow.next[b], b) in s.store.maps.table
  {
    assert WorkerOk(s.flow, w) && HomeOk(s.flow, b) && BucketOk(c, s.store.maps, b);
    assert OwnerOk(s, w, b) && OwnerOk(s, s.flow.next[b], b);
  }

  /** Between batches a sender has the key maps it is to send. */
  lemma SendProceeds(c: Config, s: Sys, model: Model, w: WorkerId)
    requires StoreOk(c, s.store, model) && Coupled(c, s) && FlowOk(s.flow) && CanSendMaps(s.flow, w)
    requires SessionOf(s.store.sessions, w).batch == None
    ensures CanSend(c, s.store, w, s.flow.next)
  {
    forall b | 0 <= b < c.numBuckets && Moves(s.store.maps, w, s.flow.next, b)
      ensures HasMap(s.store.maps, w, b) && b in s.store.maps.home && s.store.maps.home[b] == At(w)
      ensures (s.flow.next[b], b) in s.store.maps.table
    {
      HandsOverMoved(c, s, w, b);
    }
  }

  lemma ArrivingHome(f: Flow, src: WorkerId, dst: WorkerId, b: Bucket)
    requires FlowOk(f) && CanConnect(f, src, dst) && b in Arriving(f, src, dst)
    ensures b < |f.table| && Lookup(f.home, b) == Some(Flying(src, dst)) && f.next[b] == dst && f.table[b] == src
    ensures f.stage != Idle
  {
    assert PeerOk(f, src, dst) && HomeOk(f, b) && WorkerOk(f, src);
  }

  lemma ConnectedHomeOf(f: Flow, src: WorkerId, dst: WorkerId, b: Bucket)
    requires FlowOk(f) && CanConnect(f, src, dst)
    ensures Lookup(DoConnect(f, src, dst).home, b) == Lookup(f.home, b)
            || (Lookup(f.home, b) == Some(Flying(src, dst)) && Lookup(DoConnect(f, src, dst).home, b) == Some(At(dst)))
  {
    if b in Arriving(f, src, dst) { ArrivingHome(f, src, dst, b); }
  }

  lemma InstallProceeds(c: Config, s: Sys, model: Model, src: WorkerId, dst: WorkerId)
    requires StoreOk(c, s.store, model) && Coupled(c, s) && FlowOk(s.flow) && CanConnect(s.flow, src, dst)
    ensures CanInstall(s.store.maps, dst, src, Arriving(s.flow, src, dst))
  {
    forall b | b in Arriving(s.flow, src, dst)
      ensures b < c.numBuckets && Lookup(s.store.maps.home, b) == Some(Flying(src, dst))
    {
      ArrivingHome(s.flow, src, dst, b);
    }
    InstallNeverAborts(c, s.store, model, dst, src, Arriving(s.flow, src, dst));
  }

  lemma NeverToRemoved(s: Sys, w: WorkerId)
    requires GlobalOk(s.flow) && s.flow.stage == Draining
    ensures forall b :: !Affects(s, w, w, b)
  {
  }

  lemma MessageProceeds(c: Config, s: Sys, w: WorkerId, affected: map<WorkerId, seq<Bucket>>)
    requires FlowOk(s.flow) && EventualOk(c, s) && s.flow.stage == Draining && w !in s.told
    requires exists x: WorkerId, b: Bucket :: Affects(s, w, x, b)
    requires IsMessage(s, w, affected) && SessionOf(s.store.sessions, w).scans == map[]
    ensures CanSetMeta(s.store, w, affected)
  {
    assert WorkerEventualOk(c, s, w);
    assert w in affected ==> Affects(s, w, w, affected[w][0]);
    NeverToRemoved(s, w);
  }

  /** While its migration is on, a worker has the key maps of all affected
      buckets. */
  lemma AffectedHasMap(c: Config, s: Sys, model: Model, w: WorkerId, x: WorkerId, b: Bucket)
    requires SysOk(c, s, model) && EventualOf(s.store, w).enabled
    requires x in EventualOf(s.store, w).affected && b in EventualOf(s.store, w).affected[x]
    ensures HasMap(s.store.maps, w, b)
  {
    assert WorkerEventualOk(c, s, w);
    assert Affects(s, w, x, b);
    FinishedHome(s.flow, b);
    HomeHasMap(c, s.store.maps, w, b);
  }

  /** A scan that is due fails exactly when it is late. */
  lemma ScanExact(c: Config, s: Sys, model: Model, w: WorkerId, x: WorkerId)
    requires SysOk(c, s, model) && ScanDue(s.store, w, x)
    ensures ScanSafe(s.store, w, x) <==> !Late(s.store, w, x)
  {
    assert WorkerEventualOk(c, s, w);
    var ev := EventualOf(s.store, w);
    if ev.enabled {
      forall b: Bucket | b in ev.affected[x] ensures HasMap(s.store.maps, w, b) {
        AffectedHasMap(c, s, model, w, x, b);
      }
    }
  }

  /** The steps at which a worker fails: the delete of a key that is not live, a
      scan that starts after the last cancelling worker was counted, and a
      hand-over with a routine of a leaving key outstanding. */
  ghost predicate Fatal(c: Config, s: Sys, a: SysAction, model: Model) {
    match a
    case State(x) => (x.Write? && x.op.Drop? && x.k !in model) || (x.StartScan? && Late(s.store, x.w, x.c))
    case HandOver(w) => !RoutinesDone(c, s.store, w, s.flow.next)
    case _ => false
  }

  lemma SafeIff(c: Config, s: Sys, x: Action, model: Model)
    requires ValidConfig(c) && SysOk(c, s, model) && Due(s.store, x)
    ensures Safe(c, s.store, x) <==> !Fatal(c, s, State(x), model)
  {
    match x
    case Update(w, k) => UpdateNeverAborts(c, s.store, model, w, k);
    case Write(w, k, op) => WriteExact(c, s.store, model, w, k, op);
    case StartScan(w, y, _, _, _) => ScanExact(c, s, model, w, y);
    case _ =>
  }

  lemma BatchStepProceeds(c: Config, s: Sys, w: WorkerId, keys: set<Key>, s': Sys, model: Model)
    requires ValidConfig(c) && StoreOk(c, s.store, model) && Coupled(c, s) && HandsOk(s) && !s.aborted
    requires BatchStep(c, s, w, keys, s')
    ensures !s'.aborted && Step(c, s.store, Begin(w, keys), s'.store)
  {
    BatchProceeds(c, s, model, w, keys);
    Proceeds(c, s, Begin(w, keys), s', DoBegin(c, s.store, w, keys));
  }

  lemma NewTaskProceeds(c: Config, s: Sys, w: WorkerId, s': Sys)
    requires Coupled(c, s) && FlowOk(s.flow) && !s.aborted && NewTaskStep(c, s, w, s')
    ensures !s'.aborted && Step(c, s.store, Deploy(w, s.flow.next), s'.store)
  {
    DeployProceeds(c, s, w);
    Proceeds(c, s, Deploy(w, s.flow.next), s', DoDeploy(s.store, w, s.flow.next));
  }

  lemma HandOverProceeds(c: Config, s: Sys, w: WorkerId, s': Sys, model: Model)
    requires StoreOk(c, s.store, model) && Coupled(c, s) && FlowOk(s.flow) && !s.aborted && CleanHandOver(c, s, w, s')
    requires SessionOf(s.store.sessions, w).batch == None && RoutinesDone(c, s.store, w, s.flow.next)
    ensures !s'.aborted && Step(c, s.store, Depart(w, s.flow.next), s'.store)
  {
    SendProceeds(c, s, model, w);
    Proceeds(c, s, Depart(w, s.flow.next), s', DoDepart(c, s.store, w, s.flow.next));
  }

  lemma TakeOverProceeds(c: Config, s: Sys, src: WorkerId, dst: WorkerId, s': Sys, model: Model)
    requires StoreOk(c, s.store, model) && Coupled(c, s) && FlowOk(s.flow) && !s.aborted
    requires TakeOverStep(c, s, src, dst, s')
    ensures !s'.aborted && Step(c, s.store, Install(dst, src, Arriving(s.flow, src, dst)), s'.store)
  {
    InstallProceeds(c, s, model, src, dst);
    var buckets := Arriving(s.flow, src, dst);
    Proceeds(c, s, Install(dst, src, buckets), s', DoInstall(s.store, dst, src, buckets));
  }

  lemma MessageStepProceeds(c: Config, s: Sys, w: WorkerId, affected: map<WorkerId, seq<Bucket>>, s': Sys)
    requires FlowOk(s.flow) && EventualOk(c, s) && !s.aborted && MessageStep(c, s, w, affected, s')
    ensures !s'.aborted && Step(c, s.store, SetMeta(w, affected), s'.store)
  {
    MessageProceeds(c, s, w, affected);
    Proceeds(c, s, SetMeta(w, affected), s', DoSetMeta(s.store, w, affected));
  }

  // ------------------------------------------------------------- coupling

  /** Steps of the state that move no key map leave homes and owners alone. */
  lemma TablesKept(c: Config, t: Store, a: Action, t': Store)
    requires Step(c, t, a, t') && !MovesMaps(a)
    ensures t'.maps.home == t.maps.home
    ensures forall p :: p in t'.maps.table <==> p in t.maps.table
    ensures forall p | p in t.maps.table :: t'.maps.table[p].owner == t.maps.table[p].owner
  {
    if !a.Update? && !a.Write? { MapsKept(c, t, a, t'); }
  }

  /** Steps of the protocol that no step of the state goes with. */
  predicate KeepsHomes(fa: FlowAction) {
    Stateless(fa) || fa.Start? || fa.Process? || fa.ProcessPeer? || fa.Finish?
  }

  lemma HomesKept(f: Flow, fa: FlowAction, f': Flow)
    requires FlowStep(f, fa, f') && KeepsHomes(fa)
    ensures f'.home == f.home && f'.deployed == f.deployed
    ensures fa.Start? || fa.Finish? ||
            (f'.table == f.table && f'.next == f.next && (f.stage != Idle ==> f'.stage != Idle))
  {
  }

  lemma CoupledState(c: Config, s: Sys, s': Sys, a: Action)
    requires Coupled(c, s) && Step(c, s.store, a, s'.store) && !MovesMaps(a) && s'.flow == s.flow
    ensures Coupled(c, s')
  {
    TablesKept(c, s.store, a, s'.store);
    forall w: WorkerId, b: Bucket | b < c.numBuckets ensures OwnerOk(s', w, b) { assert OwnerOk(s, w, b); }
  }

  lemma CoupledProtocol(c: Config, s: Sys, s': Sys, fa: FlowAction)
    requires Coupled(c, s) && FlowOk(s.flow) && FlowStep(s.flow, fa, s'.flow) && KeepsHomes(fa) && s'.store == s.store
    ensures Coupled(c, s')
  {
    var f, f' := s.flow, s'.flow;
    HomesKept(f, fa, f');
    forall w: WorkerId, b: Bucket | b < c.numBuckets ensures OwnerOk(s', w, b) {
      assert OwnerOk(s, w, b);
      if fa.Finish? { FinishedHome(f, b); }
      if fa.Start? { assert HomeOk(f, b) && WorkerOk(f, f.table[b]); }
    }
  }

  lemma CoupledDeploy(c: Config, s: Sys, s': Sys, w: WorkerId)
    requires Coupled(c, s) && FlowOk(s.flow) && CanDeployTask(s.flow, w)
    requires s'.flow == DoDeployTask(s.flow, w) && s'.store == DoDeploy(s.store, w, s.flow.next)
    ensures Coupled(c, s')
  {
    forall x: WorkerId, b: Bucket | b < c.numBuckets ensures OwnerOk(s', x, b) {
      assert OwnerOk(s, x, b) && HomeOk(s.flow, b);
      if x != w { assert Lookup(s'.store.maps.table, (x, b)) == Lookup(s.store.maps.table, (x, b)); }
    }
  }

  /** A bucket leaves the home of its sender, or stays where it was. */
  lemma SentHomeOf(f: Flow, w: WorkerId, b: Bucket)
    requires FlowOk(f) && CanSendMaps(f, w)
    ensures Lookup(DoSendMaps(f, w).home, b) ==
              if b < |f.table| && f.table[b] == w && f.next[b] != w then Some(Flying(w, f.next[b]))
              else Lookup(f.home, b)
    ensures b < |f.table| && f.table[b] == w ==> Lookup(f.home, b) == Some(At(w))
    ensures f.stage != Idle
  {
    assert WorkerOk(f, w);
    if b < |f.table| { assert HomeOk(f, b); }
  }

  lemma DepartedHomes(c: Config, m: Maps, f: Flow, w: WorkerId)
    requires |f.next| == |f.table| == c.numBuckets && m.home == f.home
    requires forall b: Bucket | b < c.numBuckets :: Moves(m, w, f.next, b) <==> f.table[b] == w && f.next[b] != w
    ensures DepartMaps(c, m, w, f.next).home == DoSendMaps(f, w).home
  {
    assert Leaving(c, m, w, f.next) == GivenAway(f, w);
  }

  lemma DepartedOwner(c: Config, m: Maps, f: Flow, w: WorkerId, x: WorkerId, b: Bucket)
    requires |f.next| == |f.table| == c.numBuckets && b < c.numBuckets
    requires Moves(m, w, f.next, b) <==> f.table[b] == w && f.next[b] != w
    ensures (x, b) in DepartMaps(c, m, w, f.next).table <==> (x, b) in m.table
    ensures (x, b) in m.table ==>
              DepartMaps(c, m, w, f.next).table[(x, b)].owner ==
                (if x == w && f.table[b] == w && f.next[b] != w then f.next[b] else m.table[(x, b)].owner)
  {
  }

  lemma CoupledDepart(c: Config, s: Sys, s': Sys, model: Model, w: WorkerId)
    requires Coupled(c, s) && FlowOk(s.flow) && StoreOk(c, s.store, model) && CanSendMaps(s.flow, w)
    requires s'.flow == DoSendMaps(s.flow, w) && s'.store.maps == DepartMaps(c, s.store.maps, w, s.flow.next)
    ensures Coupled(c, s')
  {
    forall b: Bucket | b < c.numBuckets
      ensures Moves(s.store.maps, w, s.flow.next, b) <==> s.flow.table[b] == w && s.flow.next[b] != w
    {
      HandsOverMoved(c, s, w, b);
    }
    DepartedHomes(c, s.store.maps, s.flow, w);
    forall x: WorkerId, b: Bucket | b < c.numBuckets ensures OwnerOk(s', x, b) {
      DepartedOwner(c, s.store.maps, s.flow, w, x, b);
      SentHomeOf(s.flow, w, b);
      assert OwnerOk(s, x, b);
    }
  }

  lemma CoupledInstall(c: Config, s: Sys, s': Sys, src: WorkerId, dst: WorkerId)
    requires Coupled(c, s) && FlowOk(s.flow) && CanConnect(s.flow, src, dst)
    requires var buckets := Arriving(s.flow, src, dst);
             CanInstall(s.store.maps, dst, src, buckets)
             && s'.store.maps == InstallMaps(s.store.maps, dst, src, buckets)
    requires s'.flow == DoConnect(s.flow, src, dst)
    ensures Coupled(c, s')
  {
    var buckets := Arriving(s.flow, src, dst);
    forall x: WorkerId, b: Bucket | b < c.numBuckets ensures OwnerOk(s', x, b) {
      assert OwnerOk(s, x, b);
      if b in buckets { ArrivingHome(s.flow, src, dst, b); }
    }
  }

  // ----------------------------------------------------------------- hands

  lemma HandsDepart(s: Sys, s': Sys, w: WorkerId)
    requires HandsOk(s) && FlowOk(s.flow) && CanSendMaps(s.flow, w) && Hand(s, w) == {}
    requires s'.flow == DoSendMaps(s.flow, w) && s'.hand == s.hand
    ensures HandsOk(s')
  {
    forall x: WorkerId, b: Bucket | b in Hand(s', x) ensures Lookup(s'.flow.home, b) == Some(At(x)) {
      assert Hand(s', x) == Hand(s, x);
      SentHomeOf(s.flow, w, b);
    }
  }

  lemma HandsInstall(s: Sys, s': Sys, src: WorkerId, dst: WorkerId)
    requires HandsOk(s) && FlowOk(s.flow) && CanConnect(s.flow, src, dst)
    requires s'.flow == DoConnect(s.flow, src, dst) && s'.hand == s.hand
    ensures HandsOk(s')
  {
    forall x: WorkerId, b: Bucket | b in Hand(s', x) ensures Lookup(s'.flow.home, b) == Some(At(x)) {
      assert Hand(s', x) == Hand(s, x);
      ConnectedHomeOf(s.flow, src, dst, b);
    }
  }

  lemma HandsReceive(s: Sys, s': Sys, w: WorkerId, b: Bucket)
    requires HandsOk(s) && s'.flow.home == s.flow.home && s'.hand == s.hand[w := Hand(s, w) + {b}]
    requires Lookup(s.flow.home, b) == Some(At(w))
    ensures HandsOk(s')
  {
    forall x: WorkerId, d: Bucket | d in Hand(s', x) ensures Lookup(s'.flow.home, d) == Some(At(x)) {
      assert x != w || d != b ==> d in Hand(s, x);
    }
  }

  lemma HandsSame(s: Sys, s': Sys)
    requires HandsOk(s) && s'.flow.home == s.flow.home && forall w: WorkerId :: Hand(s', w) <= Hand(s, w)
    ensures HandsOk(s')
  {
    forall x: WorkerId, b: Bucket | b in Hand(s', x) ensures Lookup(s'.flow.home, b) == Some(At(x)) {
      assert Hand(s', x) <= Hand(s, x);
    }
  }

  // --------------------------------------------------------------- history

  /** A key stays where it is listed or is listed at the home of its bucket. */
  lemma LocationStep(c: Config, t: Store, a: Action, t': Store, model: Model, k: Key)
    requires ValidConfig(c) && StoreOk(c, t, model) && Step(c, t, a, t')
    ensures Location(c, t'.maps, k) == Location(c, t.maps, k)
         || ((a.Update? || a.Write?) && a.k == k && HomeOf(c, t.maps, k) == Some(At(a.w))
             && (Location(c, t'.maps, k) == None || Location(c, t'.maps, k) == Some(a.w)))
  {
    if a.Update? || a.Write? {
      LocationWrite(c, t, a, t', model, k);
    } else if MovesMaps(a) {
      LocationMove(c, t, a, t', model, k);
    } else {
      MapsKept(c, t, a, t');
    }
  }

  lemma LocationWrite(c: Config, t: Store, a: Action, t': Store, model: Model, k: Key)
    requires ValidConfig(c) && StoreOk(c, t, model) && Step(c, t, a, t') && (a.Update? || a.Write?)
    ensures HomeOf(c, t.maps, a.k) == Some(At(a.w))
    ensures a.k != k ==> Location(c, t'.maps, k) == Location(c, t.maps, k)
    ensures Location(c, t'.maps, a.k) == None || Location(c, t'.maps, a.k) == Some(a.w)
  {
    assert KeyOk(c, t, a.k in model, a.k) && KeyOkAt(c, t, a.k, a.w);
    var keys := MapAt(t.maps, a.w, c.bucketOf(a.k));
    var keys' := if a.Write? && a.op.Drop? then keys - {a.k} else keys[a.k := a.w];
    Relocate(c, t.maps, a.w, a.k, keys');
    assert t'.maps == WithMap(t.maps, a.w, c.bucketOf(a.k), keys');
  }

  lemma LocationMove(c: Config, t: Store, a: Action, t': Store, model: Model, k: Key)
    requires ValidConfig(c) && StoreOk(c, t, model) && Step(c, t, a, t') && MovesMaps(a)
    ensures Location(c, t'.maps, k) == Location(c, t.maps, k)
  {
    var b := c.bucketOf(k);
    assert BucketOk(c, t.maps, b);
    match a
    case Depart(w, n) => DepartBucket(c, t.maps, w, n, b);
    case Install(w, src, bs) => InstallBucket(c, t.maps, w, src, bs, b);
    case Deploy(w, n) => DeployBucket(c, t.maps, w, n, b);
  }

  /** The home of a bucket is its owner before or after the reconfiguration. */
  lemma HomeIsOwner(f: Flow, b: Bucket, w: WorkerId)
    requires FlowOk(f) && b < |f.table| && Lookup(f.home, b) == Some(At(w))
    ensures w == f.table[b] || (f.stage != Idle && w == f.next[b])
  {
    assert HomeOk(f, b) && WorkerOk(f, f.table[b]);
  }

  lemma HistoryState(c: Config, s: Sys, s': Sys, a: Action, model: Model, k: Key)
    requires ValidConfig(c) && StoreOk(c, s.store, model) && FlowOk(s.flow) && Coupled(c, s)
    requires HistoryOk(s, c.bucketOf(k)) && LocatedInHistory(c, s, k) && Step(c, s.store, a, s'.store)
    requires s'.history == s.history
    ensures LocatedInHistory(c, s', k)
  {
    LocationStep(c, s.store, a, s'.store, model, k);
    if HomeOf(c, s.store.maps, k) == Some(At(a.w)) { HomeIsOwner(s.flow, c.bucketOf(k), a.w); }
  }

  /** Where a migration comes from: an older one, or the listed location. */
  lemma SourceStep(c: Config, t: Store, a: Action, t': Store, model: Model, w: WorkerId, k: Key)
    requires ValidConfig(c) && StoreOk(c, t, model) && Step(c, t, a, t') && k in Pending(t'.sessions, w)
    ensures if k in Pending(t.sessions, w)
            then KeepsMoving(Pending(t.sessions, w)[k], Lookup(Pending(t'.sessions, w), k))
            else Location(c, t.maps, k) == Some(Pending(t'.sessions, w)[k].src) && HomeOf(c, t.maps, k) == Some(At(w))
  {
    if a.w != w {
      OtherSessions(c, t, a, t', w);
    } else if a.Begin? {
      SourceBegin(c, t, model, w, a.keys, k);
    } else if a.StartScan? {
      if k in a.keys { SourceScan(c, t, a, t', model, k); }
    } else if a.Fetch? || a.Flush? || a.Update? {
      assert a.k != k ==> Lookup(Pending(t'.sessions, w), k) == Lookup(Pending(t.sessions, w), k);
    } else {
      assert Pending(t'.sessions, w) == Pending(t.sessions, w);
    }
  }

  lemma SourceBegin(c: Config, t: Store, model: Model, w: WorkerId, keys: set<Key>, k: Key)
    requires ValidConfig(c) && StoreOk(c, t, model) && CanBegin(c, t, w, keys)
    requires k in Pending(DoBegin(c, t, w, keys).sessions, w)
    ensures Location(c, t.maps, k) == Some(Pending(DoBegin(c, t, w, keys).sessions, w)[k].src)
    ensures k !in Pending(t.sessions, w) && HomeOf(c, t.maps, k) == Some(At(w))
  {
    GroupedRemoteIsListed(c, t, model, w, k);
  }

  lemma SourceScan(c: Config, t: Store, a: Action, t': Store, model: Model, k: Key)
    requires ValidConfig(c) && StoreOk(c, t, model) && a.StartScan? && Step(c, t, a, t') && k in a.keys
    ensures k in Pending(t'.sessions, a.w) && Location(c, t.maps, k) == Some(Pending(t'.sessions, a.w)[k].src)
    ensures k !in Pending(t.sessions, a.w) && HomeOf(c, t.maps, k) == Some(At(a.w))
  {
    var ev, dup := EventualOf(t, a.w), SessionOf(t.sessions, a.w).scans[a.c].dup;
    var b: Bucket :| b in ev.affected[a.c] && (a.c, b) !in ev.finished && k in Eligible(t, a.w, a.c, dup, b);
    CollectedKey(c, t, model, a.w, a.c, b, k);
  }

  lemma SourcesState(c: Config, s: Sys, s': Sys, a: Action, model: Model)
    requires ValidConfig(c) && StoreOk(c, s.store, model) && SourcesOk(c, s) && Step(c, s.store, a, s'.store)
    requires forall k: Key :: LocatedInHistory(c, s, k)
    requires s'.history == s.history
    ensures SourcesOk(c, s')
  {
    forall w: WorkerId, k: Key | k in Pending(s'.store.sessions, w)
      ensures Pending(s'.store.sessions, w)[k].src in History(s', c.bucketOf(k))
    {
      SourceStep(c, s.store, a, s'.store, model, w, k);
      assert LocatedInHistory(c, s, k);
    }
  }

  // ------------------------------------------------------- removed workers

  /** A bucket with a key on the move stays where it is. */
  lemma HomeStays(c: Config, t: Store, a: Action, t': Store, w: WorkerId, k: Key)
    requires Step(c, t, a, t') && HomeOf(c, t.maps, k) == Some(At(w)) && k in Pending(t.sessions, w)
    ensures HomeOf(c, t'.maps, k) == Some(At(w))
  {
    if !MovesMaps(a) { TablesKept(c, t, a, t'); }
  }

  lemma DepartingStep(c: Config, t: Store, a: Action, t': Store, model: Model, x: WorkerId, k: Key)
    requires ValidConfig(c) && StoreOk(c, t, model) && Step(c, t, a, t') && Departing(c, t, x, k)
    requires Location(c, t.maps, k) == Some(x) && Location(c, t'.maps, k) == Some(x)
    ensures Departing(c, t', x, k)
  {
    var w := HomeOf(c, t.maps, k).value.w;
    HomeStays(c, t, a, t', w, k);
    assert KeyOk(c, t, k in model, k) && KeyOkAt(c, t, k, w);
    if a == Update(w, k) {
      LocationWrite(c, t, a, t', model, k);
    } else {
      if a.StartScan? && a.w == w && k in a.keys { NotCollected(c, t, a, model, k); }
      MovesOn(c, t, a, t', w, k);
    }
  }

  /** A worker that is retired and owns nothing stays retired. */
  lemma RetiredStep(c: Config, t: Store, a: Action, t': Store, model: Model, x: WorkerId)
    requires ValidConfig(c) && StoreOk(c, t, model) && Step(c, t, a, t') && Retired(c, t, x)
    requires forall b: Bucket | b < c.numBuckets :: Lookup(t.maps.home, b) != Some(At(x))
    ensures Retired(c, t', x)
  {
    forall k: Key | Location(c, t'.maps, k) == Some(x) ensures Departing(c, t', x, k) {
      LocationStep(c, t, a, t', model, k);
      DepartingStep(c, t, a, t', model, x, k);
    }
    forall w: WorkerId, k: Key | k in Pending(t'.sessions, w) && Pending(t'.sessions, w)[k].src == x
      ensures Pending(t'.sessions, w)[k].flushed
    {
      SourceStep(c, t, a, t', model, w, k);
      assert Location(c, t.maps, k) == Some(x) ==> Departing(c, t, x, k);
    }
  }

  /** When the coordinator completes, every removed worker is retired: its keys
      are in buckets whose owners were told, and those owners are done. */
  lemma RetiredNow(c: Config, s: Sys, model: Model, x: WorkerId)
    requires ValidConfig(c) && SysOk(c, s, model) && x in Removed(s.flow) && s.flow.stage == Draining
    requires forall w: WorkerId, x: WorkerId, b: Bucket | Affects(s, w, x, b) :: w in s.told
    requires forall w | w in s.told :: EventualOf(s.store, w).remaining == 0
    ensures Retired(c, s.store, x)
  {
    forall k: Key | Location(c, s.store.maps, k) == Some(x) ensures Departing(c, s.store, x, k) {
      ListedAtRemoved(c, s, model, x, k);
    }
    forall w: WorkerId, k: Key | k in Pending(s.store.sessions, w) && Pending(s.store.sessions, w)[k].src == x
      ensures Pending(s.store.sessions, w)[k].flushed
    {
      MovedOffRemoved(c, s, model, x, w, k);
    }
  }

  lemma OwnerAffected(c: Config, s: Sys, x: WorkerId, b: Bucket)
    requires FlowOk(s.flow) && Coupled(c, s) && b < c.numBuckets
    requires x in Removed(s.flow) && s.flow.stage == Draining && x in History(s, b)
    ensures Affects(s, s.flow.next[b], x, b) && Lookup(s.flow.home, b) == Some(At(s.flow.next[b]))
    ensures x != s.flow.next[b]
  {
    FinishedHome(s.flow, b);
  }

  lemma DoneWorker(c: Config, s: Sys, w: WorkerId, x: WorkerId, b: Bucket)
    requires EventualOk(c, s) && Affects(s, w, x, b) && w in s.told && EventualOf(s.store, w).remaining == 0
    ensures var ev := EventualOf(s.store, w);
            ev.current && x in ev.affected && b in ev.affected[x] && x in ev.done && CoveredFlushed(s.store, w, b, x)
  {
    assert WorkerEventualOk(c, s, w);
  }

  lemma ListedAtRemoved(c: Config, s: Sys, model: Model, x: WorkerId, k: Key)
    requires ValidConfig(c) && StoreOk(c, s.store, model) && FlowOk(s.flow) && Coupled(c, s) && EventualOk(c, s)
    requires LocatedInHistory(c, s, k) && x in Removed(s.flow) && s.flow.stage == Draining
    requires forall w: WorkerId, x: WorkerId, b: Bucket | Affects(s, w, x, b) :: w in s.told
    requires forall w | w in s.told :: EventualOf(s.store, w).remaining == 0
    requires Location(c, s.store.maps, k) == Some(x)
    ensures Departing(c, s.store, x, k)
  {
    var b := c.bucketOf(k);
    OwnerAffected(c, s, x, b);
    var w := s.flow.next[b];
    DoneWorker(c, s, w, x, b);
    assert k in PointingTo(s.store.maps, w, b, x);
    assert KeyOk(c, s.store, k in model, k) && KeyOkAt(c, s.store, k, w);
  }

  lemma MovedOffRemoved(c: Config, s: Sys, model: Model, x: WorkerId, w: WorkerId, k: Key)
    requires ValidConfig(c) && StoreOk(c, s.store, model) && FlowOk(s.flow) && Coupled(c, s) && EventualOk(c, s)
    requires SourcesOk(c, s)
    requires x in Removed(s.flow) && s.flow.stage == Draining
    requires forall w: WorkerId, x: WorkerId, b: Bucket | Affects(s, w, x, b) :: w in s.told
    requires forall w | w in s.told :: EventualOf(s.store, w).remaining == 0
    requires k in Pending(s.store.sessions, w) && Pending(s.store.sessions, w)[k].src == x
    ensures Pending(s.store.sessions, w)[k].flushed
  {
    var b := c.bucketOf(k);
    OwnerAffected(c, s, x, b);
    assert KeyOk(c, s.store, k in model, k) && KeyOkAt(c, s.store, k, w);
    DoneWorker(c, s, w, x, b);
    assert WorkerEventualOk(c, s, w);
    assert SourceDoneAt(c, EventualOf(s.store, w), Pending(s.store.sessions, w)[k], k);
  }

  lemma GoneOwnsNothing(c: Config, s: Sys, x: WorkerId, b: Bucket)
    requires FlowOk(s.flow) && Coupled(c, s) && GoneOk(c, s) && x in s.gone && b < c.numBuckets
    ensures Lookup(s.store.maps.home, b) != Some(At(x))
  {
    if Lookup(s.store.maps.home, b) == Some(At(x)) { HomeIsOwner(s.flow, b, x); }
  }

  lemma GoneState(c: Config, s: Sys, s': Sys, a: Action, model: Model)
    requires ValidConfig(c) && StoreOk(c, s.store, model) && FlowOk(s.flow) && Coupled(c, s) && GoneOk(c, s)
    requires Step(c, s.store, a, s'.store) && s'.gone == s.gone
    requires s'.flow.active == s.flow.active && s'.flow.updated == s.flow.updated && s'.flow.stage == s.flow.stage
    ensures GoneOk(c, s')
  {
    forall x | c.eventual && x in s'.gone ensures Retired(c, s'.store, x) {
      forall b: Bucket | b < c.numBuckets ensures Lookup(s.store.maps.home, b) != Some(At(x)) {
        GoneOwnsNothing(c, s, x, b);
      }
      RetiredStep(c, s.store, a, s'.store, model, x);
    }
  }

  // ---------------------------------------------------- eventual migration

  /** The message of a worker stays the one it was told. */
  lemma MessageSame(s: Sys, s': Sys, w: WorkerId, affected: map<WorkerId, seq<Bucket>>)
    requires IsMessage(s, w, affected) && s'.history == s.history
    requires s'.flow.next == s.flow.next && s'.flow.active == s.flow.active && s'.flow.updated == s.flow.updated
    ensures IsMessage(s', w, affected)
  {
    assert forall x, b :: Affects(s', w, x, b) == Affects(s, w, x, b);
  }

  /** Nothing is counted twice: a finished migration stays finished. */
  lemma EventualStep(c: Config, t: Store, a: Action, t': Store, w: WorkerId)
    requires Step(c, t, a, t') && ProgressOk(t, w) && !(a.SetMeta? && a.w == w)
    ensures EventualOf(t', w).affected == EventualOf(t, w).affected
    ensures EventualOf(t, w).remaining == 0 ==> EventualOf(t', w).remaining == 0
    ensures !MovesBuckets(a, w) ==> EventualOf(t', w).current == EventualOf(t, w).current
  {
    if a.w != w { OtherSessions(c, t, a, t', w); }
  }

  lemma ToldStep(c: Config, s: Sys, s': Sys, a: Action, w: WorkerId)
    requires Step(c, s.store, a, s'.store) && ProgressOk(s.store, w) && ToldOk(s, w)
    requires s'.history == s.history && SameTables(s.flow, s'.flow) && s'.flow.stage == s.flow.stage
    requires if a.SetMeta? then s'.told == s.told + {a.w} && s.flow.stage == Draining && IsMessage(s, a.w, a.affected)
             else s'.told == s.told
    requires MovesMaps(a) ==> s.told == {}
    ensures ToldOk(s', w)
  {
    if a.SetMeta? && a.w == w {
      MessageSame(s, s', w, a.affected);
    } else {
      EventualStep(c, s.store, a, s'.store, w);
      if w in s.told { MessageSame(s, s', w, EventualOf(s.store, w).affected); }
    }
  }

  lemma EventualState(c: Config, s: Sys, s': Sys, a: Action, model: Model)
    requires ValidConfig(c) && StoreOk(c, s.store, model) && EventualOk(c, s) && Step(c, s.store, a, s'.store)
    requires s'.history == s.history && SameTables(s.flow, s'.flow) && s'.flow.stage == s.flow.stage
    requires if a.SetMeta? then s'.told == s.told + {a.w} && s.flow.stage == Draining && IsMessage(s, a.w, a.affected)
             else s'.told == s.told
    requires MovesMaps(a) ==> s.told == {}
    ensures EventualOk(c, s')
  {
    forall w: WorkerId ensures WorkerEventualOk(c, s', w) {
      assert WorkerEventualOk(c, s, w);
      ProgressStep(c, s.store, a, s'.store, model, w);
      CountsStep(c, s.store, a, s'.store, w);
      SourceDoneStep(c, s.store, a, s'.store, model, w);
      ToldStep(c, s, s', a, w);
    }
  }

  lemma ToldWhenDraining(c: Config, s: Sys)
    requires EventualOk(c, s) && s.flow.stage != Draining
    ensures s.told == {}
  {
    forall w: WorkerId ensures w !in s.told { assert WorkerEventualOk(c, s, w); }
  }

  // -------------------------------------------------------------- each step

  /** Steps of the state that move no key map. */
  lemma StateKeeps(c: Config, s: Sys, s': Sys, a: Action, model: Model)
    requires ValidConfig(c) && SysOk(c, s, model) && Step(c, s.store, a, s'.store) && !MovesMaps(a)
    requires s'.flow == s.flow && s'.hand == s.hand && s'.history == s.history && s'.gone == s.gone
    requires if a.SetMeta? then s'.told == s.told + {a.w} && s.flow.stage == Draining && IsMessage(s, a.w, a.affected)
             else s'.told == s.told
    ensures SysOk(c, s', ModelStep(model, a))
  {
    StepKeeps(c, s.store, a, s'.store, model);
    CoupledState(c, s, s', a);
    HandsSame(s, s');
    forall b: Bucket ensures HistoryOk(s', b) { assert HistoryOk(s, b); }
    forall k: Key ensures LocatedInHistory(c, s', k) {
      assert HistoryOk(s, c.bucketOf(k)) && LocatedInHistory(c, s, k);
      HistoryState(c, s, s', a, model, k);
    }
    SourcesState(c, s, s', a, model);
    GoneState(c, s, s', a, model);
    EventualState(c, s, s', a, model);
  }

  /** Steps that move key maps, with the protocol step they go with. */
  lemma MoveKeeps(c: Config, s: Sys, s': Sys, a: Action, model: Model)
    requires ValidConfig(c) && SysOk(c, s, model) && Step(c, s.store, a, s'.store) && MovesMaps(a)
    requires FlowOk(s'.flow) && Coupled(c, s') && HandsOk(s')
    requires SameTables(s.flow, s'.flow) && s'.flow.stage == s.flow.stage && s.flow.stage != Draining
    requires s'.history == s.history && s'.gone == s.gone && s'.told == s.told
    ensures SysOk(c, s', model)
  {
    StepKeeps(c, s.store, a, s'.store, model);
    forall b: Bucket ensures HistoryOk(s', b) { assert HistoryOk(s, b); }
    forall k: Key ensures LocatedInHistory(c, s', k) {
      assert HistoryOk(s, c.bucketOf(k)) && LocatedInHistory(c, s, k);
      HistoryState(c, s, s', a, model, k);
    }
    SourcesState(c, s, s', a, model);
    GoneState(c, s, s', a, model);
    ToldWhenDraining(c, s);
    EventualState(c, s, s', a, model);
  }

  lemma ProtocolFrame(f: Flow, fa: FlowAction, f': Flow)
    requires FlowStep(f, fa, f') && (Stateless(fa) || fa.Process? || fa.ProcessPeer?)
    ensures SameTables(f, f') && f'.home == f.home
    ensures f'.stage == Idle <==> f.stage == Idle
    ensures f.stage == Draining ==> f'.stage == Draining
  {
  }

  /** Steps of the protocol inside a reconfiguration that move no key map. */
  lemma ProtocolKeeps(c: Config, s: Sys, s': Sys, fa: FlowAction, model: Model)
    requires ValidConfig(c) && SysOk(c, s, model) && FlowStep(s.flow, fa, s'.flow)
    requires Stateless(fa) || fa.Process? || fa.ProcessPeer?
    requires s'.store == s.store && s'.history == s.history && s'.gone == s.gone && s'.told == s.told
    requires HandsOk(s')
    ensures SysOk(c, s', model)
  {
    FlowStepKeeps(s.flow, fa, s'.flow);
    ProtocolFrame(s.flow, fa, s'.flow);
    CoupledProtocol(c, s, s', fa);
    forall b: Bucket ensures HistoryOk(s', b) { assert HistoryOk(s, b); }
    forall k: Key ensures LocatedInHistory(c, s', k) { assert LocatedInHistory(c, s, k); }
    forall w: WorkerId ensures WorkerEventualOk(c, s', w) {
      assert WorkerEventualOk(c, s, w);
      if w in s.told { MessageSame(s, s', w, EventualOf(s.store, w).affected); }
    }
    forall x | c.eventual && x in s'.gone ensures Retired(c, s'.store, x) { assert Retired(c, s.store, x); }
  }

  lemma RepartitionKeeps(c: Config, s: Sys, s': Sys, next: Table, updated: set<WorkerId>, model: Model)
    requires ValidConfig(c) && SysOk(c, s, model) && RepartitionStep(s, next, updated, s')
    ensures SysOk(c, s', model)
  {
    FlowStepKeeps(s.flow, Start(next, updated), s'.flow);
    CoupledProtocol(c, s, s', Start(next, updated));
    HandsSame(s, s');
    forall b: Bucket
      ensures HistoryOk(s', b) && (b < c.numBuckets ==> History(s, b) <= History(s', b))
    {
      assert HistoryOk(s, b);
    }
    forall k: Key ensures LocatedInHistory(c, s', k) { assert LocatedInHistory(c, s, k); }
    forall w: WorkerId, k: Key | k in Pending(s'.store.sessions, w)
      ensures Pending(s'.store.sessions, w)[k].src in History(s', c.bucketOf(k))
    {
      assert Pending(s.store.sessions, w)[k].src in History(s, c.bucketOf(k));
    }
    ToldWhenDraining(c, s);
    forall w: WorkerId ensures WorkerEventualOk(c, s', w) {
      assert WorkerEventualOk(c, s, w);
    }
    forall x | c.eventual && x in s'.gone ensures Retired(c, s'.store, x) { assert Retired(c, s.store, x); }
  }

  lemma CompleteKeeps(c: Config, s: Sys, s': Sys, model: Model)
    requires ValidConfig(c) && SysOk(c, s, model) && CompleteStep(c, s, s')
    ensures SysOk(c, s', model)
  {
    FlowStepKeeps(s.flow, Finish, s'.flow);
    CoupledProtocol(c, s, s', Finish);
    HandsSame(s, s');
    forall b: Bucket ensures HistoryOk(s', b) { assert HistoryOk(s, b); }
    forall k: Key ensures LocatedInHistory(c, s', k) { assert LocatedInHistory(c, s, k); }
    forall w: WorkerId ensures WorkerEventualOk(c, s', w) {
      assert WorkerEventualOk(c, s, w);
    }
    forall x | c.eventual && x in s'.gone ensures Retired(c, s'.store, x) {
      if x in Removed(s.flow) { RetiredNow(c, s, model, x); } else { assert Retired(c, s.store, x); }
    }
  }

  lemma RestKeeps(c: Config, s: Sys, s': Sys, w: WorkerId, model: Model)
    requires SysOk(c, s, model) && s' == s.(hand := s.hand - {w})
    ensures SysOk(c, s', model)
  {
    HandsSame(s, s');
    forall x: WorkerId, b: Bucket | b < c.numBuckets ensures OwnerOk(s', x, b) { assert OwnerOk(s, x, b); }
    forall b: Bucket ensures HistoryOk(s', b) { assert HistoryOk(s, b); }
    forall k: Key ensures LocatedInHistory(c, s', k) { assert LocatedInHistory(c, s, k); }
    forall w: WorkerId ensures WorkerEventualOk(c, s', w) {
      assert WorkerEventualOk(c, s, w);
      if w in s.told { MessageSame(s, s', w, EventualOf(s.store, w).affected); }
    }
  }

  lemma HandOverParts(c: Config, s: Sys, s': Sys, w: WorkerId, model: Model)
    requires StoreOk(c, s.store, model) && Coupled(c, s) && FlowOk(s.flow) && HandsOk(s) && Hand(s, w) == {}
    requires s'.hand == s.hand && CanSendMaps(s.flow, w) && s'.flow == DoSendMaps(s.flow, w)
    requires Step(c, s.store, Depart(w, s.flow.next), s'.store)
    ensures Coupled(c, s') && HandsOk(s') && FlowOk(s'.flow) && s.flow.stage != Draining
  {
    CoupledDepart(c, s, s', model, w);
    HandsDepart(s, s', w);
    SendMapsKeeps(s.flow, w);
    assert WorkerOk(s.flow, w);
  }

  lemma CleanKeeps(c: Config, s: Sys, s': Sys, w: WorkerId, model: Model)
    requires ValidConfig(c) && SysOk(c, s, model) && !s.aborted && CleanHandOver(c, s, w, s') && Hand(s, w) == {}
    requires SessionOf(s.store.sessions, w).batch == None && RoutinesDone(c, s.store, w, s.flow.next)
    ensures SysOk(c, s', model) && !s'.aborted
  {
    HandOverProceeds(c, s, w, s', model);
    HandOverParts(c, s, s', w, model);
    MoveKeeps(c, s, s', Depart(w, s.flow.next), model);
  }

  lemma HandOverKeeps(c: Config, s: Sys, s': Sys, w: WorkerId, model: Model)
    requires ValidConfig(c) && SysOk(c, s, model) && !s.aborted && HandOverStep(c, s, w, s')
    ensures SysOk(c, s', model) && (s'.aborted <==> !RoutinesDone(c, s.store, w, s.flow.next))
  {
    if RoutinesDone(c, s.store, w, s.flow.next) {
      CleanKeeps(c, s, s', w, model);
    } else {
      AbortKeeps(c, s, s', model);
    }
  }

  lemma TakeOverParts(c: Config, s: Sys, s': Sys, src: WorkerId, dst: WorkerId, model: Model)
    requires StoreOk(c, s.store, model) && Coupled(c, s) && FlowOk(s.flow) && HandsOk(s) && !s.aborted
    requires TakeOverStep(c, s, src, dst, s')
    ensures Coupled(c, s') && HandsOk(s') && FlowOk(s'.flow) && s.flow.stage != Draining
  {
    TakeOverProceeds(c, s, src, dst, s', model);
    CoupledInstall(c, s, s', src, dst);
    HandsInstall(s, s', src, dst);
    ConnectKeeps(s.flow, src, dst);
  }

  lemma TakeOverKeeps(c: Config, s: Sys, s': Sys, src: WorkerId, dst: WorkerId, model: Model)
    requires ValidConfig(c) && SysOk(c, s, model) && !s.aborted && TakeOverStep(c, s, src, dst, s')
    ensures SysOk(c, s', model) && !s'.aborted
  {
    TakeOverProceeds(c, s, src, dst, s', model);
    TakeOverParts(c, s, s', src, dst, model);
    MoveKeeps(c, s, s', Install(dst, src, Arriving(s.flow, src, dst)), model);
  }

  lemma NewTaskKeeps(c: Config, s: Sys, s': Sys, w: WorkerId, model: Model)
    requires ValidConfig(c) && SysOk(c, s, model) && !s.aborted && NewTaskStep(c, s, w, s')
    ensures SysOk(c, s', model) && !s'.aborted
  {
    NewTaskProceeds(c, s, w, s');
    CoupledDeploy(c, s, s', w);
    HandsSame(s, s');
    DeployTaskKeeps(s.flow, w);
    MoveKeeps(c, s, s', Deploy(w, s.flow.next), model);
  }

  /** A fatal exit changes nothing but the flag. */
  lemma AbortKeeps(c: Config, s: Sys, s': Sys, model: Model)
    requires SysOk(c, s, model) && s' == s.(aborted := true)
    ensures SysOk(c, s', model)
  {
    HandsSame(s, s');
    forall x: WorkerId, b: Bucket | b < c.numBuckets ensures OwnerOk(s', x, b) { assert OwnerOk(s, x, b); }
    forall b: Bucket ensures HistoryOk(s', b) { assert HistoryOk(s, b); }
    forall k: Key ensures LocatedInHistory(c, s', k) { assert LocatedInHistory(c, s, k); }
    forall w: WorkerId ensures WorkerEventualOk(c, s', w) {
      assert WorkerEventualOk(c, s, w);
      if w in s.told { MessageSame(s, s', w, EventualOf(s.store, w).affected); }
    }
  }

  lemma RoutineKeeps(c: Config, s: Sys, s': Sys, x: Action, model: Model)
    requires ValidConfig(c) && SysOk(c, s, model) && !s.aborted && StateStep(c, s, x, s')
    ensures SysOk(c, s', ModelStep(model, x)) && (s'.aborted <==> Fatal(c, s, State(x), model))
  {
    SafeIff(c, s, x, model);
    if Safe(c, s.store, x) {
      StateKeeps(c, s, s', x, model);
    } else {
      AbortKeeps(c, s, s', model);
      assert ModelStep(model, x) == model;
    }
  }

  lemma BatchKeeps(c: Config, s: Sys, s': Sys, w: WorkerId, keys: set<Key>, model: Model)
    requires ValidConfig(c) && SysOk(c, s, model) && !s.aborted && BatchStep(c, s, w, keys, s')
    ensures SysOk(c, s', model) && !s'.aborted
  {
    BatchStepProceeds(c, s, w, keys, s', model);
    StateKeeps(c, s, s', Begin(w, keys), model);
  }

  lemma MessageKeeps(c: Config, s: Sys, s': Sys, w: WorkerId, affected: map<WorkerId, seq<Bucket>>, model: Model)
    requires ValidConfig(c) && SysOk(c, s, model) && !s.aborted && MessageStep(c, s, w, affected, s')
    ensures SysOk(c, s', model) && !s'.aborted
  {
    MessageStepProceeds(c, s, w, affected, s');
    StateKeeps(c, s, s', SetMeta(w, affected), model);
  }

  lemma ReceiveKeeps(c: Config, s: Sys, s': Sys, u: Upstream, w: WorkerId, r: Record, model: Model)
    requires ValidConfig(c) && SysOk(c, s, model) && ReceiveStep(s, Process(u, w, r), w, r.bucket, s')
    ensures SysOk(c, s', model)
  {
    ProcessAtHome(s.flow, u, w, r);
    HandsReceive(s, s', w, r.bucket);
    ProtocolKeeps(c, s, s', Process(u, w, r), model);
  }

  lemma ReceivePeerKeeps(c: Config, s: Sys, s': Sys, src: WorkerId, dst: WorkerId, r: Record, model: Model)
    requires ValidConfig(c) && SysOk(c, s, model) && ReceiveStep(s, ProcessPeer(src, dst, r), dst, r.bucket, s')
    ensures SysOk(c, s', model)
  {
    ProcessPeerAtHome(s.flow, src, dst, r);
    HandsReceive(s, s', dst, r.bucket);
    ProtocolKeeps(c, s, s', ProcessPeer(src, dst, r), model);
  }

  /** Every step keeps the invariant, whatever the values are, and a worker
      fails in exactly the cases of Fatal. */
  lemma SysStepKeeps(c: Config, s: Sys, a: SysAction, s': Sys, model: Model)
    requires ValidConfig(c) && SysOk(c, s, model) && SysStep(c, s, a, s')
    ensures SysOk(c, s', SysModelStep(model, a))
    ensures s'.aborted <==> Fatal(c, s, a, model)
  {
    match a
    case State(x) => RoutineKeeps(c, s, s', x, model);
    case StartBatch(w, keys) => BatchKeeps(c, s, s', w, keys, model);
    case Message(w, affected) => MessageKeeps(c, s, s', w, affected, model);
    case Move(fa) => HandsMove(c, s, fa, s'); ProtocolKeeps(c, s, s', fa, model);
    case Receive(u, w, r) => ReceiveKeeps(c, s, s', u, w, r, model);
    case ReceivePeer(src, dst, r) => ReceivePeerKeeps(c, s, s', src, dst, r, model);
    case Repartition(next, updated) => RepartitionKeeps(c, s, s', next, updated, model);
    case NewTask(w) => NewTaskKeeps(c, s, s', w, model);
    case HandOver(w) => HandOverKeeps(c, s, s', w, model);
    case TakeOver(src, dst) => TakeOverKeeps(c, s, s', src, dst, model);
    case Rest(w) => RestKeeps(c, s, s', w, model);
    case Complete => CompleteKeeps(c, s, s', model);
  }

  lemma HandsMove(c: Config, s: Sys, fa: FlowAction, s': Sys)
    requires HandsOk(s) && FlowStep(s.flow, fa, s'.flow) && Stateless(fa) && s'.hand == s.hand
    ensures HandsOk(s')
  {
    ProtocolFrame(s.flow, fa, s'.flow);
    HandsSame(s, s');
  }
}

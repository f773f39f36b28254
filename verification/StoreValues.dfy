/**
 The values of the distributed store, key by key: what every routine that works
 on a key will read or write is the value of the key in one global map.

 This holds for a key as long as no key map with it arrives at a worker that
 still stores an old copy of the key after it was deleted.
 */
module StoreValues {
  import opened Types
  import opened KeyedStore
  import opened StoreInvariant

  /** A key that is being moved from g.src to w. */
  ghost predicate MovingValue(be: Backends, w: WorkerId, k: Key, v: Value, g: Migration) {
    && Lookup(be, (g.src, k)) == Some(v)
    && (g.value.Some? ==> g.value.value == v)
    && (g.flushed ==> Lookup(be, (w, k)) == Some(v))
  }

  /** A live key is where the lookup says, a dead one has no copy at its owner,
      and what a batch has read is right until the batch is served. */
  ghost predicate HeldOk(be: Backends, w: WorkerId, k: Key, y: KeySession, loc: Option<WorkerId>, v: Option<Value>) {
    && (match v
        case None => (w, k) !in be
        case Some(x) =>
          if y.mig.Some? then MovingValue(be, w, k, x, y.mig.value)
          else loc.Some? && Lookup(be, (loc.value, k)) == Some(x))
    && (y.got.Some? && !y.served ==> y.got.value == v)
  }

  ghost predicate ValueOk(c: Config, s: Store, v: Option<Value>, k: Key) {
    var loc := Location(c, s.maps, k);
    match HomeOf(c, s.maps, k)
    case None => true
    case Some(At(w)) => HeldOk(s.backend, w, k, KeyIn(SessionOf(s.sessions, w), k), loc, v)
    case Some(Flying(_, _)) => v.Some? ==> loc.Some? && Lookup(s.backend, (loc.value, k)) == v
  }

  // --------------------------------------------------------------- frames

  ghost predicate SameValue(c: Config, s: Store, s': Store, k: Key) {
    && Location(c, s'.maps, k) == Location(c, s.maps, k)
    && HomeOf(c, s'.maps, k) == HomeOf(c, s.maps, k)
    && (forall w: WorkerId :: Lookup(s'.backend, (w, k)) == Lookup(s.backend, (w, k)))
    && (forall w: WorkerId :: KeyIn(SessionOf(s'.sessions, w), k) == KeyIn(SessionOf(s.sessions, w), k))
  }

  lemma ValueFrame(c: Config, s: Store, s': Store, v: Option<Value>, k: Key)
    requires ValueOk(c, s, v, k) && SameValue(c, s, s', k)
    ensures ValueOk(c, s', v, k)
  {
    match HomeOf(c, s.maps, k)
    case Some(At(w)) =>
      assert KeyIn(SessionOf(s'.sessions, w), k) == KeyIn(SessionOf(s.sessions, w), k);
      assert Lookup(s'.backend, (w, k)) == Lookup(s.backend, (w, k));
      var g := KeyIn(SessionOf(s.sessions, w), k).mig;
      assert g.Some? ==> Lookup(s'.backend, (g.value.src, k)) == Lookup(s.backend, (g.value.src, k));
      var loc := Location(c, s.maps, k);
      assert loc.Some? ==> Lookup(s'.backend, (loc.value, k)) == Lookup(s.backend, (loc.value, k));
    case _ =>
  }

  /** What the structure says about a key at its home, or away from it. */
  lemma KeyStructure(c: Config, s: Store, model: Model, k: Key, w: WorkerId)
    requires StoreOk(c, s, model)
    ensures KeyOk(c, s, k in model, k) && KeyOkAt(c, s, k, w)
  {
    assert KeyOk(c, s, k in model, k);
  }

  /** A step of worker w that changes nothing of key k. */
  lemma OtherKey(c: Config, s: Store, s': Store, v: Option<Value>, k: Key, w: WorkerId, x: Session)
    requires ValueOk(c, s, v, k) && s'.sessions == s.sessions[w := x]
    requires KeyIn(x, k) == KeyIn(SessionOf(s.sessions, w), k)
    requires Location(c, s'.maps, k) == Location(c, s.maps, k) && HomeOf(c, s'.maps, k) == HomeOf(c, s.maps, k)
    requires forall w': WorkerId :: Lookup(s'.backend, (w', k)) == Lookup(s.backend, (w', k))
    ensures ValueOk(c, s', v, k)
  {
    ValueFrame(c, s, s', v, k);
  }

  // --------------------------------------------------- steps of a routine

  lemma ReadLocalOwn(c: Config, s: Store, model: Model, w: WorkerId, k: Key)
    requires StoreOk(c, s, model) && CanReadLocal(s, w, k) && ValueOk(c, s, Lookup(model, k), k)
    ensures ValueOk(c, DoReadLocal(s, w, k), Lookup(model, k), k)
  {
    KeyStructure(c, s, model, k, w);
  }

  lemma ReadLocalValue(c: Config, s: Store, model: Model, w: WorkerId, j: Key, k: Key)
    requires StoreOk(c, s, model) && CanReadLocal(s, w, j) && ValueOk(c, s, Lookup(model, k), k)
    ensures ValueOk(c, DoReadLocal(s, w, j), Lookup(model, k), k)
  {
    var s' := DoReadLocal(s, w, j);
    if j == k {
      ReadLocalOwn(c, s, model, w, k);
    } else {
      OtherKey(c, s, s', Lookup(model, k), k, w, SessionOf(s'.sessions, w));
    }
  }

  lemma FetchOwn(c: Config, s: Store, model: Model, w: WorkerId, k: Key)
    requires StoreOk(c, s, model) && CanFetch(s, w, k) && ValueOk(c, s, Lookup(model, k), k)
    ensures ValueOk(c, DoFetch(s, w, k), Lookup(model, k), k)
  {
    KeyStructure(c, s, model, k, w);
    FetchKey(c, s, w, k);
    FetchedKeyIn(s, w, k);
    var x := SessionOf(s.sessions, w);
    FetchedHeld(s.backend, w, k, KeyIn(x, k), Location(c, s.maps, k), Lookup(model, k));
  }

  lemma FetchedHeld(be: Backends, w: WorkerId, k: Key, y: KeySession, loc: Option<WorkerId>, v: Option<Value>)
    requires HeldOk(be, w, k, y, loc, v) && y.mig.Some? && v.Some? && y.mig.value.value == None
    requires PlaceOk(w, y.mig, loc)
    ensures (y.mig.value.src, k) in be
    ensures HeldOk(be, w, k, FetchedKey(y, be[(y.mig.value.src, k)]), loc, v)
  {
  }

  lemma FetchValue(c: Config, s: Store, model: Model, w: WorkerId, j: Key, k: Key)
    requires StoreOk(c, s, model) && CanFetch(s, w, j) && ValueOk(c, s, Lookup(model, k), k)
    ensures ValueOk(c, DoFetch(s, w, j), Lookup(model, k), k)
  {
    var s' := DoFetch(s, w, j);
    if j == k {
      FetchOwn(c, s, model, w, k);
    } else {
      FetchSession(s, w, j);
      OtherKey(c, s, s', Lookup(model, k), k, w, SessionOf(s'.sessions, w));
    }
  }

  lemma FlushOwn(c: Config, s: Store, model: Model, w: WorkerId, k: Key)
    requires StoreOk(c, s, model) && CanFlush(s, w, k) && ValueOk(c, s, Lookup(model, k), k)
    ensures ValueOk(c, DoFlush(s, w, k), Lookup(model, k), k)
  {
    KeyStructure(c, s, model, k, w);
  }

  lemma FlushValue(c: Config, s: Store, model: Model, w: WorkerId, j: Key, k: Key)
    requires StoreOk(c, s, model) && CanFlush(s, w, j) && ValueOk(c, s, Lookup(model, k), k)
    ensures ValueOk(c, DoFlush(s, w, j), Lookup(model, k), k)
  {
    var s' := DoFlush(s, w, j);
    if j == k {
      FlushOwn(c, s, model, w, k);
    } else {
      OtherKey(c, s, s', Lookup(model, k), k, w, SessionOf(s'.sessions, w));
    }
  }

  lemma UpdateOwn(c: Config, s: Store, model: Model, w: WorkerId, k: Key)
    requires ValidConfig(c) && StoreOk(c, s, model) && CanUpdate(c, s, w, k) && ValueOk(c, s, Lookup(model, k), k)
    ensures ValueOk(c, DoUpdate(c, s, w, k), Lookup(model, k), k)
  {
    KeyStructure(c, s, model, k, w);
    Relocate(c, s.maps, w, k, MapAt(s.maps, w, c.bucketOf(k))[k := w]);
  }

  lemma UpdateValue(c: Config, s: Store, model: Model, w: WorkerId, j: Key, k: Key)
    requires ValidConfig(c) && StoreOk(c, s, model) && CanUpdate(c, s, w, j) && ValueOk(c, s, Lookup(model, k), k)
    ensures ValueOk(c, DoUpdate(c, s, w, j), Lookup(model, k), k)
  {
    if j == k {
      UpdateOwn(c, s, model, w, k);
    } else {
      var s' := DoUpdate(c, s, w, j);
      assert HomeOf(c, s.maps, j) == Some(At(w)) by { KeyStructure(c, s, model, j, w); }
      Relocate(c, s.maps, w, j, MapAt(s.maps, w, c.bucketOf(j))[j := w]);
      OtherKey(c, s, s', Lookup(model, k), k, w, SessionOf(s'.sessions, w));
    }
  }

  lemma WriteOwn(c: Config, s: Store, model: Model, w: WorkerId, op: Op, k: Key)
    requires ValidConfig(c) && StoreOk(c, s, model) && CanWrite(c, s, w, k, op) && ValueOk(c, s, Lookup(model, k), k)
    ensures ValueOk(c, DoWrite(c, s, w, k, op), Lookup(Apply(model, k, op), k), k)
  {
    KeyStructure(c, s, model, k, w);
    var keys := MapAt(s.maps, w, c.bucketOf(k));
    Relocate(c, s.maps, w, k, if op.Drop? then keys - {k} else keys[k := w]);
  }

  lemma WriteValue(c: Config, s: Store, model: Model, w: WorkerId, j: Key, op: Op, k: Key)
    requires ValidConfig(c) && StoreOk(c, s, model) && CanWrite(c, s, w, j, op) && ValueOk(c, s, Lookup(model, k), k)
    ensures ValueOk(c, DoWrite(c, s, w, j, op), Lookup(Apply(model, j, op), k), k)
  {
    if j == k {
      WriteOwn(c, s, model, w, op, k);
    } else {
      var s' := DoWrite(c, s, w, j, op);
      assert HomeOf(c, s.maps, j) == Some(At(w)) by { KeyStructure(c, s, model, j, w); }
      var keys := MapAt(s.maps, w, c.bucketOf(j));
      Relocate(c, s.maps, w, j, if op.Drop? then keys - {j} else keys[j := w]);
      ValueFrame(c, s, s', Lookup(model, k), k);
    }
  }

  // ----------------------------------------------------- steps of a batch

  lemma BeginValue(c: Config, s: Store, model: Model, w: WorkerId, keys: set<Key>, k: Key)
    requires ValidConfig(c) && StoreOk(c, s, model) && CanBegin(c, s, w, keys) && ValueOk(c, s, Lookup(model, k), k)
    ensures ValueOk(c, DoBegin(c, s, w, keys), Lookup(model, k), k)
  {
    KeyStructure(c, s, model, k, w);
    assert BucketOk(c, s.maps, c.bucketOf(k));
    var s' := DoBegin(c, s, w, keys);
    assert forall w': WorkerId | w' != w :: SessionOf(s'.sessions, w') == SessionOf(s.sessions, w');
  }

  lemma ServeValue(c: Config, s: Store, model: Model, w: WorkerId, result: map<Key, Option<Value>>, k: Key)
    requires StoreOk(c, s, model) && CanServe(s, w, result) && ValueOk(c, s, Lookup(model, k), k)
    ensures ValueOk(c, DoServe(s, w), Lookup(model, k), k)
    ensures k in result ==> result[k] == Lookup(model, k)
  {
    KeyStructure(c, s, model, k, w);
    var s' := DoServe(s, w);
    assert forall w': WorkerId | w' != w :: SessionOf(s'.sessions, w') == SessionOf(s.sessions, w');
  }

  lemma EndValue(c: Config, s: Store, model: Model, w: WorkerId, k: Key)
    requires StoreOk(c, s, model) && CanEnd(s, w) && ValueOk(c, s, Lookup(model, k), k)
    ensures ValueOk(c, DoEnd(s, w), Lookup(model, k), k)
  {
    KeyStructure(c, s, model, k, w);
    var s' := DoEnd(s, w);
    assert forall w': WorkerId | w' != w :: SessionOf(s'.sessions, w') == SessionOf(s.sessions, w');
  }

  lemma StartScanOwn(c: Config, s: Store, model: Model, w: WorkerId, x: WorkerId, keys: set<Key>,
                     finished: set<(WorkerId, Bucket)>, allDone: bool, k: Key)
    requires StoreOk(c, s, model) && CanStartScan(c, s, w, x, keys, finished, allDone) && k in keys
    requires ValueOk(c, s, Lookup(model, k), k)
    ensures ValueOk(c, DoStartScan(s, w, x, keys, finished, allDone), Lookup(model, k), k)
  {
    StartedSession(s, w, x, keys, finished, allDone, k);
    CollectedByScan(c, s, model, w, x, keys, finished, allDone, k);
    KeyStructure(c, s, model, k, w);
  }

  lemma StartScanValue(c: Config, s: Store, model: Model, w: WorkerId, x: WorkerId, keys: set<Key>,
                       finished: set<(WorkerId, Bucket)>, allDone: bool, k: Key)
    requires StoreOk(c, s, model) && CanStartScan(c, s, w, x, keys, finished, allDone)
    requires ValueOk(c, s, Lookup(model, k), k)
    ensures ValueOk(c, DoStartScan(s, w, x, keys, finished, allDone), Lookup(model, k), k)
  {
    var s' := DoStartScan(s, w, x, keys, finished, allDone);
    if k in keys {
      StartScanOwn(c, s, model, w, x, keys, finished, allDone, k);
    } else {
      StartedSession(s, w, x, keys, finished, allDone, k);
      OtherKey(c, s, s', Lookup(model, k), k, w, SessionOf(s'.sessions, w));
    }
  }

  // --------------------------------------------------------- bucket moves

  lemma DepartValue(c: Config, s: Store, model: Model, w: WorkerId, newTable: seq<WorkerId>, k: Key)
    requires ValidConfig(c) && StoreOk(c, s, model) && CanDepart(c, s, w, newTable)
    requires ValueOk(c, s, Lookup(model, k), k)
    ensures ValueOk(c, DoDepart(c, s, w, newTable), Lookup(model, k), k)
  {
    var b := c.bucketOf(k);
    assert BucketOk(c, s.maps, b);
    DepartBucket(c, s.maps, w, newTable, b);
    KeyStructure(c, s, model, k, w);
  }

  /** The backend of w has no copy of k, or k is live. */
  ghost predicate NoOldCopy(s: Store, model: Model, w: WorkerId, k: Key) {
    (w, k) in s.backend ==> k in model
  }

  /** A key map that arrives at w keeps the value of a key right exactly when w
      has no old copy of it. */
  lemma ArrivalExact(c: Config, s: Store, model: Model, w: WorkerId, src: WorkerId, buckets: set<Bucket>, k: Key)
    requires ValidConfig(c) && StoreOk(c, s, model) && CanInstall(s.maps, w, src, buckets)
    requires ValueOk(c, s, Lookup(model, k), k)
    ensures ValueOk(c, DoInstall(s, w, src, buckets), Lookup(model, k), k)
            <==> (c.bucketOf(k) in buckets ==> NoOldCopy(s, model, w, k))
  {
    var b := c.bucketOf(k);
    assert BucketOk(c, s.maps, b);
    InstallBucket(c, s.maps, w, src, buckets, b);
    KeyStructure(c, s, model, k, w);
  }

  lemma DeployValue(c: Config, s: Store, model: Model, w: WorkerId, newTable: seq<WorkerId>, k: Key)
    requires ValidConfig(c) && StoreOk(c, s, model) && CanDeploy(c, s.maps, w, newTable)
    requires ValueOk(c, s, Lookup(model, k), k)
    ensures ValueOk(c, DoDeploy(s, w, newTable), Lookup(model, k), k)
  {
    var b := c.bucketOf(k);
    assert BucketOk(c, s.maps, b);
    DeployBucket(c, s.maps, w, newTable, b);
    ValueFrame(c, s, DoDeploy(s, w, newTable), Lookup(model, k), k);
  }

  predicate OfKey(a: Action) {
    a.ReadLocal? || a.Fetch? || a.Flush? || a.Update? || a.Write?
  }

  lemma KeyValueStep(c: Config, s: Store, a: Action, s': Store, model: Model, k: Key)
    requires ValidConfig(c) && StoreOk(c, s, model) && Step(c, s, a, s') && ValueOk(c, s, Lookup(model, k), k)
    requires OfKey(a)
    ensures ValueOk(c, s', Lookup(ModelStep(model, a), k), k)
  {
    match a
    case ReadLocal(w, j) => ReadLocalValue(c, s, model, w, j, k);
    case Fetch(w, j) => FetchValue(c, s, model, w, j, k);
    case Flush(w, j) => FlushValue(c, s, model, w, j, k);
    case Update(w, j) => UpdateValue(c, s, model, w, j, k);
    case Write(w, j, op) => WriteValue(c, s, model, w, j, op, k);
  }

  /** Every step keeps the value of a key right, unless its key map arrives where
      an old copy of it is. */
  lemma ValueStep(c: Config, s: Store, a: Action, s': Store, model: Model, k: Key)
    requires ValidConfig(c) && StoreOk(c, s, model) && Step(c, s, a, s') && ValueOk(c, s, Lookup(model, k), k)
    requires a.Install? && c.bucketOf(k) in a.buckets ==> NoOldCopy(s, model, a.w, k)
    ensures ValueOk(c, s', Lookup(ModelStep(model, a), k), k)
  {
    if OfKey(a) {
      KeyValueStep(c, s, a, s', model, k);
    } else {
      match a
      case Begin(w, keys) => BeginValue(c, s, model, w, keys, k);
      case Serve(w, r) => ServeValue(c, s, model, w, r, k);
      case End(w) => EndValue(c, s, model, w, k);
      case StartScan(w, x, keys, fin, all) => StartScanValue(c, s, model, w, x, keys, fin, all, k);
      case EndScan(w, x) => OtherKey(c, s, s', Lookup(model, k), k, w, SessionOf(s'.sessions, w));
      case SetMeta(w, aff) => ValueFrame(c, s, s', Lookup(model, k), k);
      case Depart(w, t) => DepartValue(c, s, model, w, t, k);
      case Install(w, src, bs) => ArrivalExact(c, s, model, w, src, bs, k);
      case Deploy(w, t) => DeployValue(c, s, model, w, t, k);
    }
  }
}

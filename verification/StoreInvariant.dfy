/**
 The invariant of the distributed store: which keys are listed, where, and which
 routines are working on them. It says nothing about values and holds in every
 run. It is stated key by key and bucket by bucket, so that a step that touches
 one key leaves the invariant of every other key alone.
 */
module StoreInvariant {
  import opened Types
  import opened KeyedStore

  type Model = map<Key, Value>

  // ------------------------------------------------------- abstract spec

  /** The abstract state: one global map, changed only by writes. */
  function Apply(model: Model, k: Key, op: Op): Model {
    match op
    case Put(v) => model[k := v]
    case Append(v) => model[k := (if k in model then model[k] else []) + v]
    case Drop => model - {k}
  }

  function ModelStep(model: Model, a: Action): Model {
    if a.Write? then Apply(model, a.k, a.op) else model
  }

  // ----------------------------------------------------------- invariant

  /** A table has a non-nil map for exactly the buckets it names its worker as
      owner of, and only the home of a bucket has entries in its map. */
  ghost predicate BucketOk(c: Config, m: Maps, b: Bucket) {
    && b in m.home
    && (forall w: WorkerId | (w, b) in m.table :: HasMap(m, w, b) <==> m.table[(w, b)].owner == w)
    && (forall w: WorkerId | HasMap(m, w, b) && m.home[b] != At(w) :: MapAt(m, w, b) == map[])
    && (forall k: Key | k in KeyMap(m, b) :: c.bucketOf(k) == b)
    && (match m.home[b]
        case At(w) => HasMap(m, w, b) && b !in m.flight
        case Flying(src, dst) => b in m.flight && src != dst && (dst, b) in m.table)
  }

  ghost predicate TablesOk(c: Config, m: Maps) {
    && (forall b: Bucket | b < c.numBuckets :: BucketOk(c, m, b))
    && (forall p | p in m.table :: p.1 < c.numBuckets)
  }

  /** Where the key lookup says the value of k is. */
  function Location(c: Config, m: Maps, k: Key): Option<WorkerId> {
    Lookup(KeyMap(m, c.bucketOf(k)), k)
  }

  function HomeOf(c: Config, m: Maps, k: Key): Option<Home> {
    Lookup(m.home, c.bucketOf(k))
  }

  /** What the session of one worker says about one key. */
  datatype KeySession = KeySession(
    mig: Option<Migration>,
    from: Option<WorkerId>,
    got: Option<Option<Value>>,
    served: bool)

  function KeyIn(x: Session, k: Key): KeySession {
    match x.batch
    case None => KeySession(Lookup(x.pending, k), None, None, false)
    case Some(y) => KeySession(Lookup(x.pending, k), Lookup(y.from, k), Lookup(y.got, k), y.served)
  }

  /** A key that is being moved from g.src to w. */
  ghost predicate MovingOk(w: WorkerId, loc: WorkerId, g: Migration) {
    && g.src != w
    && (g.flushed ==> g.value.Some?)
    && loc == (if g.updated then w else g.src)
    && !(g.flushed && g.updated)
  }

  /** Only a listed key is moved, from where it is listed. */
  ghost predicate PlaceOk(w: WorkerId, mig: Option<Migration>, loc: Option<WorkerId>) {
    mig.Some? ==> loc.Some? && MovingOk(w, loc.value, mig.value)
  }

  /** A key that a batch has not read is still where the batch looked it up. */
  ghost predicate BatchKeyOk(w: WorkerId, y: KeySession, loc: Option<WorkerId>) {
    && (y.got.Some? ==> y.from.Some?)
    && (y.from.Some? && y.served ==> y.got.Some?)
    && (y.from.Some? && y.mig.Some? ==> y.mig.value.needed && y.mig.value.src == y.from.value)
    && (y.from.Some? && y.mig == None && loc.Some? ==> loc.value == w)
    && (y.from.Some? && y.got == None && y.from.value != w ==> y.mig.Some? && y.mig.value.value == None)
    && (y.mig.Some? && y.mig.value.needed && y.mig.value.value == None ==> y.from.Some? && y.got == None)
  }

  /** Additional keys belong to a running scan, and a waiting scan knows the
      needed keys of its cancelling worker. */
  ghost predicate ScanKeyOk(scans: map<WorkerId, Scan>, k: Key, y: KeySession) {
    && (y.mig.Some? && !y.mig.value.needed ==>
          var x := y.mig.value.src; x in scans && scans[x].Running? && k in scans[x].keys)
    && (forall x | x in scans && scans[x].Waiting? && (y.from == Some(x) || (y.mig.Some? && y.mig.value.src == x)) ::
          k in scans[x].dup)
  }

  ghost predicate KeyOkAt(c: Config, s: Store, k: Key, w: WorkerId) {
    var y := KeyIn(SessionOf(s.sessions, w), k);
    if HomeOf(c, s.maps, k) == Some(At(w)) then
      && PlaceOk(w, y.mig, Location(c, s.maps, k))
      && BatchKeyOk(w, y, Location(c, s.maps, k))
      && ScanKeyOk(SessionOf(s.sessions, w).scans, k, y)
    else
      y.mig == None && y.from == None && y.got == None
  }

  /** The live keys are the listed ones. */
  ghost predicate KeyOk(c: Config, s: Store, live: bool, k: Key) {
    && (live <==> Location(c, s.maps, k).Some?)
    && forall w: WorkerId :: KeyOkAt(c, s, k, w)
  }

  /** A worker never migrates keys off itself. */
  ghost predicate NotSelf(e: map<WorkerId, Eventual>) {
    forall w | w in e :: w !in e[w].affected
  }

  ghost predicate StoreOk(c: Config, s: Store, model: Model) {
    && TablesOk(c, s.maps)
    && (forall k: Key :: KeyOk(c, s, k in model, k))
    && NotSelf(s.eventual)
  }

  // --------------------------------------------------------------- frames

  /** Nothing the invariant of key k depends on has changed. */
  ghost predicate SameKey(c: Config, s: Store, s': Store, k: Key) {
    && Location(c, s'.maps, k) == Location(c, s.maps, k)
    && HomeOf(c, s'.maps, k) == HomeOf(c, s.maps, k)
    && (forall w: WorkerId :: KeyIn(SessionOf(s'.sessions, w), k) == KeyIn(SessionOf(s.sessions, w), k))
    && (forall w: WorkerId :: SessionOf(s'.sessions, w).scans == SessionOf(s.sessions, w).scans)
  }

  lemma KeyFrame(c: Config, s: Store, s': Store, live: bool, k: Key)
    requires KeyOk(c, s, live, k) && SameKey(c, s, s', k)
    ensures KeyOk(c, s', live, k)
  {
    forall w: WorkerId ensures KeyOkAt(c, s', k, w) {
      assert KeyOkAt(c, s, k, w);
      assert KeyIn(SessionOf(s'.sessions, w), k) == KeyIn(SessionOf(s.sessions, w), k);
      assert SessionOf(s'.sessions, w).scans == SessionOf(s.sessions, w).scans;
    }
  }

  /** A step of the home worker w of k that changes nothing of other keys. */
  lemma KeyStep(c: Config, s: Store, s': Store, model: Model, model': Model, w: WorkerId, x: Session, k: Key)
    requires StoreOk(c, s, model) && HomeOf(c, s.maps, k) == Some(At(w))
    requires TablesOk(c, s'.maps) && HomeOf(c, s'.maps, k) == Some(At(w))
    requires s'.sessions == s.sessions[w := x] && x.scans == SessionOf(s.sessions, w).scans
    requires forall k': Key | k' != k :: KeyIn(x, k') == KeyIn(SessionOf(s.sessions, w), k')
    requires forall k': Key | k' != k ::
            Location(c, s'.maps, k') == Location(c, s.maps, k') && (k' in model' <==> k' in model)
    requires s'.maps.home == s.maps.home
    requires k in model' <==> Location(c, s'.maps, k).Some?
    requires KeyOkAt(c, s', k, w)
    requires s'.eventual == s.eventual
    ensures StoreOk(c, s', model')
  {
    forall k': Key ensures KeyOk(c, s', k' in model', k') {
      assert KeyOk(c, s, k' in model, k');
      if k' != k {
        KeyFrame(c, s, s', k' in model, k');
      } else {
        forall w': WorkerId | w' != w ensures KeyOkAt(c, s', k, w') {
          assert KeyOkAt(c, s, k, w');
        }
      }
    }
  }

  // --------------------------------------------------------- preservation

  lemma ReadLocalKeeps(c: Config, s: Store, model: Model, w: WorkerId, k: Key)
    requires StoreOk(c, s, model) && CanReadLocal(s, w, k)
    ensures StoreOk(c, DoReadLocal(s, w, k), model)
  {
    assert KeyOk(c, s, k in model, k) && KeyOkAt(c, s, k, w);
    var s' := DoReadLocal(s, w, k);
    KeyStep(c, s, s', model, model, w, SessionOf(s'.sessions, w), k);
  }

  lemma FetchKeeps(c: Config, s: Store, model: Model, w: WorkerId, k: Key)
    requires StoreOk(c, s, model) && CanFetch(s, w, k)
    ensures StoreOk(c, DoFetch(s, w, k), model)
  {
    assert KeyOk(c, s, k in model, k) && KeyOkAt(c, s, k, w);
    var s' := DoFetch(s, w, k);
    FetchSession(s, w, k);
    FetchKey(c, s, w, k);
    KeyStep(c, s, s', model, model, w, SessionOf(s'.sessions, w), k);
  }

  lemma FetchKey(c: Config, s: Store, w: WorkerId, k: Key)
    requires CanFetch(s, w, k) && KeyOkAt(c, s, k, w)
    ensures HomeOf(c, s.maps, k) == Some(At(w)) && KeyOkAt(c, DoFetch(s, w, k), k, w)
    ensures DoFetch(s, w, k) == s.(sessions := DoFetch(s, w, k).sessions)
  {
    FetchSession(s, w, k);
    FetchedKeyIn(s, w, k);
    var x := SessionOf(s.sessions, w);
    FetchedKeyOk(w, KeyIn(x, k), Location(c, s.maps, k), x.scans, k, Fetched(s, x.pending[k].src, k));
  }

  /** What a session says about a key after its value was fetched. */
  function FetchedKey(y: KeySession, v: Value): KeySession
    requires y.mig.Some?
  {
    y.(mig := Some(y.mig.value.(value := Some(v))), got := if y.mig.value.needed then Some(Some(v)) else y.got)
  }

  lemma FetchedKeyIn(s: Store, w: WorkerId, k: Key)
    requires CanFetch(s, w, k)
    requires var x := SessionOf(s.sessions, w);
             (x.pending[k].needed ==> x.batch.Some?) && !(x.pending[k].flushed && x.pending[k].updated)
    ensures var x := SessionOf(s.sessions, w);
            KeyIn(SessionOf(DoFetch(s, w, k).sessions, w), k) ==
              FetchedKey(KeyIn(x, k), Fetched(s, x.pending[k].src, k))
  {
  }

  lemma FetchedKeyOk(w: WorkerId, y: KeySession, loc: Option<WorkerId>, scans: map<WorkerId, Scan>, k: Key, v: Value)
    requires y.mig.Some? && y.mig.value.value == None
    requires PlaceOk(w, y.mig, loc) && BatchKeyOk(w, y, loc) && ScanKeyOk(scans, k, y)
    ensures var y' := FetchedKey(y, v);
            PlaceOk(w, y'.mig, loc) && BatchKeyOk(w, y', loc) && ScanKeyOk(scans, k, y')
  {
  }

  lemma FetchSession(s: Store, w: WorkerId, k: Key)
    requires CanFetch(s, w, k)
    ensures var s' := DoFetch(s, w, k);
            var x := SessionOf(s'.sessions, w);
            && s'.sessions == s.sessions[w := x] && x.scans == SessionOf(s.sessions, w).scans
            && forall k': Key | k' != k :: KeyIn(x, k') == KeyIn(SessionOf(s.sessions, w), k')
  {
  }

  lemma FlushKeeps(c: Config, s: Store, model: Model, w: WorkerId, k: Key)
    requires StoreOk(c, s, model) && CanFlush(s, w, k)
    ensures StoreOk(c, DoFlush(s, w, k), model)
  {
    assert KeyOk(c, s, k in model, k) && KeyOkAt(c, s, k, w);
    var s' := DoFlush(s, w, k);
    KeyStep(c, s, s', model, model, w, SessionOf(s'.sessions, w), k);
  }

  /** Replacing the location of k in the key map of its home. */
  lemma Relocate(c: Config, m: Maps, w: WorkerId, k: Key, keys: map<Key, WorkerId>)
    requires ValidConfig(c) && TablesOk(c, m) && HomeOf(c, m, k) == Some(At(w))
    requires forall k': Key | k' != k :: Lookup(keys, k') == Lookup(MapAt(m, w, c.bucketOf(k)), k')
    ensures HasMap(m, w, c.bucketOf(k))
    ensures TablesOk(c, WithMap(m, w, c.bucketOf(k), keys))
    ensures Location(c, WithMap(m, w, c.bucketOf(k), keys), k) == Lookup(keys, k)
    ensures forall k': Key | k' != k :: Location(c, WithMap(m, w, c.bucketOf(k), keys), k') == Location(c, m, k')
  {
    var b := c.bucketOf(k);
    assert BucketOk(c, m, b);
    var m' := WithMap(m, w, b, keys);
    forall b': Bucket | b' < c.numBuckets ensures BucketOk(c, m', b') {
      assert BucketOk(c, m, b');
      assert forall k' | k' != k && k' in keys :: Lookup(keys, k') == Lookup(KeyMap(m, b), k');
    }
    forall k': Key | k' != k ensures Location(c, m', k') == Location(c, m, k') {
      assert Lookup(keys, k') == Lookup(MapAt(m, w, b), k');
    }
  }

  lemma UpdateKeeps(c: Config, s: Store, model: Model, w: WorkerId, k: Key)
    requires ValidConfig(c) && StoreOk(c, s, model) && CanUpdate(c, s, w, k)
    ensures StoreOk(c, DoUpdate(c, s, w, k), model)
  {
    assert KeyOk(c, s, k in model, k) && KeyOkAt(c, s, k, w);
    Relocate(c, s.maps, w, k, MapAt(s.maps, w, c.bucketOf(k))[k := w]);
    var s' := DoUpdate(c, s, w, k);
    KeyStep(c, s, s', model, model, w, SessionOf(s'.sessions, w), k);
  }

  lemma WriteKeeps(c: Config, s: Store, model: Model, w: WorkerId, k: Key, op: Op)
    requires ValidConfig(c) && StoreOk(c, s, model) && CanWrite(c, s, w, k, op)
    ensures StoreOk(c, DoWrite(c, s, w, k, op), Apply(model, k, op))
  {
    assert KeyOk(c, s, k in model, k) && KeyOkAt(c, s, k, w);
    var keys := MapAt(s.maps, w, c.bucketOf(k));
    Relocate(c, s.maps, w, k, if op.Drop? then keys - {k} else keys[k := w]);
    var s' := DoWrite(c, s, w, k, op);
    KeyStep(c, s, s', model, Apply(model, k, op), w, SessionOf(s'.sessions, w), k);
  }

  /** A step that changes only the session of w and the eventual migration. */
  lemma SessionStep(c: Config, s: Store, s': Store, model: Model, w: WorkerId)
    requires StoreOk(c, s, model) && s'.maps == s.maps
    requires forall w': WorkerId | w' != w :: SessionOf(s'.sessions, w') == SessionOf(s.sessions, w')
    requires forall k: Key :: KeyOkAt(c, s', k, w)
    requires NotSelf(s'.eventual)
    ensures StoreOk(c, s', model)
  {
    forall k: Key ensures KeyOk(c, s', k in model, k) {
      assert KeyOk(c, s, k in model, k);
      forall w': WorkerId ensures KeyOkAt(c, s', k, w') {
        if w' != w { assert KeyOkAt(c, s, k, w'); }
      }
    }
  }

  lemma BeginKeeps(c: Config, s: Store, model: Model, w: WorkerId, keys: set<Key>)
    requires ValidConfig(c) && StoreOk(c, s, model) && CanBegin(c, s, w, keys)
    ensures StoreOk(c, DoBegin(c, s, w, keys), model)
  {
    var s' := DoBegin(c, s, w, keys);
    forall k: Key ensures KeyOkAt(c, s', k, w) {
      assert KeyOk(c, s, k in model, k) && KeyOkAt(c, s, k, w);
      assert BucketOk(c, s.maps, c.bucketOf(k));
      if k in keys {
        assert w !in EventualOf(s, w).affected;
      }
    }
    SessionStep(c, s, s', model, w);
  }

  lemma ServeKeeps(c: Config, s: Store, model: Model, w: WorkerId, result: map<Key, Option<Value>>)
    requires StoreOk(c, s, model) && CanServe(s, w, result)
    ensures StoreOk(c, DoServe(s, w), model)
  {
    var s' := DoServe(s, w);
    forall k: Key ensures KeyOkAt(c, s', k, w) {
      assert KeyOk(c, s, k in model, k) && KeyOkAt(c, s, k, w);
    }
    SessionStep(c, s, s', model, w);
  }

  lemma EndKeeps(c: Config, s: Store, model: Model, w: WorkerId)
    requires StoreOk(c, s, model) && CanEnd(s, w)
    ensures StoreOk(c, DoEnd(s, w), model)
  {
    var s' := DoEnd(s, w);
    forall k: Key ensures KeyOkAt(c, s', k, w) {
      assert KeyOk(c, s, k in model, k) && KeyOkAt(c, s, k, w);
    }
    SessionStep(c, s, s', model, w);
  }

  /** A key collected by a scan is live at the cancelling worker, untouched by
      the current batch and by every other routine. */
  lemma CollectedKey(c: Config, s: Store, model: Model, w: WorkerId, x: WorkerId, b: Bucket, k: Key)
    requires StoreOk(c, s, model) && x in EventualOf(s, w).affected
    requires x in SessionOf(s.sessions, w).scans && SessionOf(s.sessions, w).scans[x].Waiting?
    requires k in Eligible(s, w, x, SessionOf(s.sessions, w).scans[x].dup, b)
    ensures c.bucketOf(k) == b && HomeOf(c, s.maps, k) == Some(At(w)) && Location(c, s.maps, k) == Some(x) && x != w
    ensures k !in Pending(s.sessions, w) && KeyIn(SessionOf(s.sessions, w), k).from == None
  {
    assert BucketOk(c, s.maps, b);
    assert KeyOk(c, s, k in model, k) && KeyOkAt(c, s, k, w);
  }

  /** Starting a scan leaves a key alone or starts moving it off x. */
  lemma ScanKeyStep(c: Config, s: Store, s': Store, w: WorkerId, x: WorkerId, keys: set<Key>, allDone: bool, k: Key)
    requires KeyOkAt(c, s, k, w) && s'.maps == s.maps
    requires x in SessionOf(s.sessions, w).scans && SessionOf(s.sessions, w).scans[x].Waiting?
    requires SessionOf(s'.sessions, w).scans == SessionOf(s.sessions, w).scans[x := Running(keys, allDone)]
    requires k !in keys ==> KeyIn(SessionOf(s'.sessions, w), k) == KeyIn(SessionOf(s.sessions, w), k)
    requires k in keys ==>
      && HomeOf(c, s.maps, k) == Some(At(w)) && Location(c, s.maps, k) == Some(x) && x != w
      && KeyIn(SessionOf(s.sessions, w), k).mig == None
      && KeyIn(SessionOf(s.sessions, w), k).from == None
      && KeyIn(SessionOf(s'.sessions, w), k) ==
           KeyIn(SessionOf(s.sessions, w), k).(mig := Some(Migration(x, false, None, false, false)))
    ensures KeyOkAt(c, s', k, w)
  {
  }

  lemma StartedSession(s: Store, w: WorkerId, x: WorkerId, keys: set<Key>, finished: set<(WorkerId, Bucket)>,
                       allDone: bool, k: Key)
    ensures var y, y' := SessionOf(s.sessions, w),
                         SessionOf(DoStartScan(s, w, x, keys, finished, allDone).sessions, w);
            && y'.scans == y.scans[x := Running(keys, allDone)]
            && KeyIn(y', k) ==
                 if k in keys then KeyIn(y, k).(mig := Some(Migration(x, false, None, false, false))) else KeyIn(y, k)
  {
  }

  lemma CollectedByScan(c: Config, s: Store, model: Model, w: WorkerId, x: WorkerId, keys: set<Key>,
                        finished: set<(WorkerId, Bucket)>, allDone: bool, k: Key)
    requires StoreOk(c, s, model) && ScanDue(s, w, x) && k in keys
    requires ScanResult(c, s, w, x, SessionOf(s.sessions, w).scans[x].dup, keys, finished, allDone)
    ensures HomeOf(c, s.maps, k) == Some(At(w)) && Location(c, s.maps, k) == Some(x) && x != w
    ensures k !in Pending(s.sessions, w) && KeyIn(SessionOf(s.sessions, w), k).from == None
  {
    var ev, dup := EventualOf(s, w), SessionOf(s.sessions, w).scans[x].dup;
    var b: Bucket :| b in ev.affected[x] && (x, b) !in ev.finished && k in Eligible(s, w, x, dup, b);
    CollectedKey(c, s, model, w, x, b, k);
  }

  lemma StartScanKey(c: Config, s: Store, model: Model, w: WorkerId, x: WorkerId, keys: set<Key>,
                     finished: set<(WorkerId, Bucket)>, allDone: bool, k: Key)
    requires StoreOk(c, s, model) && ScanDue(s, w, x)
    requires ScanResult(c, s, w, x, SessionOf(s.sessions, w).scans[x].dup, keys, finished, allDone)
    ensures KeyOkAt(c, DoStartScan(s, w, x, keys, finished, allDone), k, w)
  {
    assert KeyOk(c, s, k in model, k) && KeyOkAt(c, s, k, w);
    StartedSession(s, w, x, keys, finished, allDone, k);
    if k in keys { CollectedByScan(c, s, model, w, x, keys, finished, allDone, k); }
    ScanKeyStep(c, s, DoStartScan(s, w, x, keys, finished, allDone), w, x, keys, allDone, k);
  }

  lemma StartScanKeeps(c: Config, s: Store, model: Model, w: WorkerId, x: WorkerId, keys: set<Key>,
                       finished: set<(WorkerId, Bucket)>, allDone: bool)
    requires StoreOk(c, s, model) && CanStartScan(c, s, w, x, keys, finished, allDone)
    ensures StoreOk(c, DoStartScan(s, w, x, keys, finished, allDone), model)
  {
    var s' := DoStartScan(s, w, x, keys, finished, allDone);
    forall k: Key ensures KeyOkAt(c, s', k, w) {
      StartScanKey(c, s, model, w, x, keys, finished, allDone, k);
    }
    SessionStep(c, s, s', model, w);
  }

  lemma EndScanKeeps(c: Config, s: Store, model: Model, w: WorkerId, x: WorkerId)
    requires StoreOk(c, s, model) && CanEndScan(s, w, x)
    ensures StoreOk(c, DoEndScan(s, w, x), model)
  {
    var s' := DoEndScan(s, w, x);
    forall k: Key ensures KeyOkAt(c, s', k, w) {
      assert KeyOk(c, s, k in model, k) && KeyOkAt(c, s, k, w);
    }
    SessionStep(c, s, s', model, w);
  }

  lemma SetMetaKeeps(c: Config, s: Store, model: Model, w: WorkerId, affected: map<WorkerId, seq<Bucket>>)
    requires StoreOk(c, s, model) && CanSetMeta(s, w, affected)
    ensures StoreOk(c, DoSetMeta(s, w, affected), model)
  {
    var s' := DoSetMeta(s, w, affected);
    forall k: Key ensures KeyOkAt(c, s', k, w) {
      assert KeyOk(c, s, k in model, k) && KeyOkAt(c, s, k, w);
    }
    SessionStep(c, s, s', model, w);
  }

  // --------------------------------------------------------- bucket moves

  lemma DepartBucket(c: Config, m: Maps, w: WorkerId, newTable: seq<WorkerId>, b: Bucket)
    requires b < c.numBuckets && BucketOk(c, m, b)
    requires Moves(m, w, newTable, b) ==> m.home[b] == At(w) && (newTable[b], b) in m.table
    ensures BucketOk(c, DepartMaps(c, m, w, newTable), b)
    ensures KeyMap(DepartMaps(c, m, w, newTable), b) == KeyMap(m, b)
  {
  }

  lemma DepartKeeps(c: Config, s: Store, model: Model, w: WorkerId, newTable: seq<WorkerId>)
    requires ValidConfig(c) && StoreOk(c, s, model) && CanDepart(c, s, w, newTable)
    ensures StoreOk(c, DoDepart(c, s, w, newTable), model)
  {
    var s' := DoDepart(c, s, w, newTable);
    forall b: Bucket | b < c.numBuckets ensures BucketOk(c, s'.maps, b) && KeyMap(s'.maps, b) == KeyMap(s.maps, b) {
      assert BucketOk(c, s.maps, b);
      DepartBucket(c, s.maps, w, newTable, b);
    }
    forall k: Key ensures KeyOk(c, s', k in model, k) {
      assert KeyOk(c, s, k in model, k);
      assert KeyMap(s'.maps, c.bucketOf(k)) == KeyMap(s.maps, c.bucketOf(k));
      forall w': WorkerId ensures KeyOkAt(c, s', k, w') {
        assert KeyOkAt(c, s, k, w');
      }
      assert KeyOkAt(c, s, k, w);
    }
  }

  lemma InstallBucket(c: Config, m: Maps, w: WorkerId, src: WorkerId, buckets: set<Bucket>, b: Bucket)
    requires CanInstall(m, w, src, buckets) && BucketOk(c, m, b)
    ensures BucketOk(c, InstallMaps(m, w, src, buckets), b)
    ensures KeyMap(InstallMaps(m, w, src, buckets), b) == KeyMap(m, b)
  {
  }

  lemma InstallKeeps(c: Config, s: Store, model: Model, w: WorkerId, src: WorkerId, buckets: set<Bucket>)
    requires ValidConfig(c) && StoreOk(c, s, model) && CanInstall(s.maps, w, src, buckets)
    ensures StoreOk(c, DoInstall(s, w, src, buckets), model)
  {
    var s' := DoInstall(s, w, src, buckets);
    forall b: Bucket | b < c.numBuckets ensures BucketOk(c, s'.maps, b) && KeyMap(s'.maps, b) == KeyMap(s.maps, b) {
      assert BucketOk(c, s.maps, b);
      InstallBucket(c, s.maps, w, src, buckets, b);
    }
    forall k: Key ensures KeyOk(c, s', k in model, k) {
      assert KeyOk(c, s, k in model, k);
      assert KeyMap(s'.maps, c.bucketOf(k)) == KeyMap(s.maps, c.bucketOf(k));
      forall w': WorkerId ensures KeyOkAt(c, s', k, w') {
        assert KeyOkAt(c, s, k, w');
      }
    }
  }

  lemma DeployBucket(c: Config, m: Maps, w: WorkerId, newTable: seq<WorkerId>, b: Bucket)
    requires b < c.numBuckets && BucketOk(c, m, b) && CanDeploy(c, m, w, newTable)
    ensures BucketOk(c, DeployMaps(m, w, newTable), b)
    ensures KeyMap(DeployMaps(m, w, newTable), b) == KeyMap(m, b)
  {
    var m' := DeployMaps(m, w, newTable);
    assert forall w': WorkerId | w' != w :: Lookup(m'.table, (w', b)) == Lookup(m.table, (w', b));
  }

  lemma DeployKeeps(c: Config, s: Store, model: Model, w: WorkerId, newTable: seq<WorkerId>)
    requires ValidConfig(c) && StoreOk(c, s, model) && CanDeploy(c, s.maps, w, newTable)
    ensures StoreOk(c, DoDeploy(s, w, newTable), model)
  {
    var s' := DoDeploy(s, w, newTable);
    forall b: Bucket | b < c.numBuckets ensures BucketOk(c, s'.maps, b) && KeyMap(s'.maps, b) == KeyMap(s.maps, b) {
      assert BucketOk(c, s.maps, b);
      DeployBucket(c, s.maps, w, newTable, b);
    }
    forall k: Key ensures KeyOk(c, s', k in model, k) {
      assert KeyOk(c, s, k in model, k);
      assert KeyMap(s'.maps, c.bucketOf(k)) == KeyMap(s.maps, c.bucketOf(k));
      KeyFrame(c, s, s', k in model, k);
    }
  }
}

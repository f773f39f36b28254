/**
 The distributed keyed state of one operator under the lazy-by-key protocol.

 Every worker has a state backend and a key lookup table. The table holds, for
 each bucket the worker owns, a key map from key to the worker whose backend
 stores the value. A batch reads its keys from wherever they are, and the
 fetched values are flushed and relocated by routines that go on after the read
 has returned. All accesses of a later batch wait for those routines.

 Each action below is one atomic step of one routine, so a run is an arbitrary
 interleaving of all routines of all workers.
 */
module KeyedStore {
  import opened Types

  /** bucketOf is the key hash modulo the number of buckets. The state of removed
      workers is migrated eventually, at most maxKeys keys a call, or stays there
      and is fetched on demand. */
  datatype Config = Config(bucketOf: Key -> Bucket, numBuckets: nat, maxKeys: int, eventual: bool)

  ghost predicate ValidConfig(c: Config) {
    forall k :: c.bucketOf(k) < c.numBuckets
  }

  /** One bucket of a worker's lookup table; keys is None when the map is nil. */
  datatype Entry = Entry(owner: WorkerId, keys: Option<map<Key, WorkerId>>)

  /** Auxiliary: the place of the one authoritative key map of a bucket. */
  datatype Home = At(w: WorkerId) | Flying(src: WorkerId, dst: WorkerId)

  /** A key on its way from src: fetched (value), then flushed to the local
      backend; the lookup table is updated independently. A key is needed when
      the current batch asked for it; otherwise it is fetched by eventual
      migration. */
  datatype Migration = Migration(src: WorkerId, needed: bool, value: Option<Value>, flushed: bool, updated: bool)

  /** fetchAdditionalKeys for one cancelling worker. */
  datatype Scan = Waiting(dup: set<Key>) | Running(keys: set<Key>, allDone: bool)

  /** from is the worker each key is grouped under, got the values read so far. */
  datatype Batch = Batch(from: map<Key, WorkerId>, got: map<Key, Option<Value>>, served: bool)

  /** The migration wait group of a worker is zero iff pending and scans are empty. */
  datatype Session = Session(batch: Option<Batch>, pending: map<Key, Migration>, scans: map<WorkerId, Scan>)

  /** Eventual migration off the cancelling workers of one message. current is
      auxiliary: no bucket of the worker has moved since the message. */
  datatype Eventual = Eventual(
    affected: map<WorkerId, seq<Bucket>>,
    finished: set<(WorkerId, Bucket)>,
    done: set<WorkerId>,
    remaining: int,
    enabled: bool,
    current: bool)

  /** The lookup tables of all workers and the serialized key maps on the peer
      channels; home is auxiliary. */
  datatype Maps = Maps(
    table: map<(WorkerId, Bucket), Entry>,
    flight: map<Bucket, map<Key, WorkerId>>,
    home: map<Bucket, Home>)

  type Backends = map<(WorkerId, Key), Value>
  type Sessions = map<WorkerId, Session>

  datatype Store = Store(
    maps: Maps,
    backend: Backends,
    sessions: Sessions,
    eventual: map<WorkerId, Eventual>)

  datatype Op = Put(v: Value) | Append(v: Value) | Drop

  datatype Action =
    | Begin(w: WorkerId, keys: set<Key>)
    | ReadLocal(w: WorkerId, k: Key)
    | Fetch(w: WorkerId, k: Key)
    | Flush(w: WorkerId, k: Key)
    | Update(w: WorkerId, k: Key)
    | Serve(w: WorkerId, result: map<Key, Option<Value>>)
    | Write(w: WorkerId, k: Key, op: Op)
    | End(w: WorkerId)
    | StartScan(w: WorkerId, c: WorkerId, keys: set<Key>, finished: set<(WorkerId, Bucket)>, allDone: bool)
    | EndScan(w: WorkerId, c: WorkerId)
    | SetMeta(w: WorkerId, affected: map<WorkerId, seq<Bucket>>)
    | Depart(w: WorkerId, newTable: seq<WorkerId>)
    | Install(w: WorkerId, src: WorkerId, buckets: set<Bucket>)
    | Deploy(w: WorkerId, newTable: seq<WorkerId>)

  // ---------------------------------------------------------------- views

  const IDLE := Session(None, map[], map[])
  const NO_EVENTUAL := Eventual(map[], {}, {}, 0, false, false)

  function SessionOf(ss: Sessions, w: WorkerId): Session {
    if w in ss then ss[w] else IDLE
  }

  function EventualOf(s: Store, w: WorkerId): Eventual {
    if w in s.eventual then s.eventual[w] else NO_EVENTUAL
  }

  function Pending(ss: Sessions, w: WorkerId): map<Key, Migration> {
    SessionOf(ss, w).pending
  }

  /** ByKeyMigrationWaitGroup.Wait() returns. */
  predicate Drained(s: Store, w: WorkerId) {
    SessionOf(s.sessions, w).pending == map[] && SessionOf(s.sessions, w).scans == map[]
  }

  predicate HasMap(m: Maps, w: WorkerId, b: Bucket) {
    (w, b) in m.table && m.table[(w, b)].keys.Some?
  }

  function MapAt(m: Maps, w: WorkerId, b: Bucket): map<Key, WorkerId> {
    if HasMap(m, w, b) then m.table[(w, b)].keys.value else map[]
  }

  /** GetWorkerID: an unknown key belongs to the owner of the bucket. */
  function GetWorkerID(m: Maps, w: WorkerId, b: Bucket, k: Key): WorkerId
    requires HasMap(m, w, b)
  {
    var e := m.table[(w, b)];
    if k in e.keys.value then e.keys.value[k] else e.owner
  }

  /** The authoritative key map of a bucket. */
  function KeyMap(m: Maps, b: Bucket): map<Key, WorkerId> {
    if b !in m.home then map[]
    else match m.home[b]
      case At(w) => MapAt(m, w, b)
      case Flying(_, _) => if b in m.flight then m.flight[b] else map[]
  }

  // -------------------------------------------------------------- actions

  function WithMap(m: Maps, w: WorkerId, b: Bucket, keys: map<Key, WorkerId>): Maps
    requires HasMap(m, w, b)
  {
    m.(table := m.table[(w, b) := m.table[(w, b)].(keys := Some(keys))])
  }

  function WithSession(s: Store, w: WorkerId, x: Session): Store {
    s.(sessions := s.sessions[w := x])
  }

  function WithMigration(s: Store, w: WorkerId, k: Key, m: Migration): Store {
    var x := SessionOf(s.sessions, w);
    WithSession(s, w, x.(pending := if m.flushed && m.updated then x.pending - {k} else x.pending[k := m]))
  }

  /** A worker only starts a batch of keys of buckets it is the home of. */
  predicate CanBegin(c: Config, s: Store, w: WorkerId, keys: set<Key>) {
    && SessionOf(s.sessions, w).batch == None
    && Drained(s, w)
    && forall k | k in keys :: HasMap(s.maps, w, c.bucketOf(k)) && Lookup(s.maps.home, c.bucketOf(k)) == Some(At(w))
  }

  function DoBegin(c: Config, s: Store, w: WorkerId, keys: set<Key>): Store
    requires CanBegin(c, s, w, keys)
  {
    var from := map k | k in keys :: GetWorkerID(s.maps, w, c.bucketOf(k), k);
    var pending := map k | k in keys && from[k] != w :: Migration(from[k], true, None, false, false);
    var ev := EventualOf(s, w);
    var scans := if ev.enabled then map x | x in ev.affected :: Waiting(set k | k in keys && from[k] == x) else map[];
    WithSession(s, w, Session(Some(Batch(from, map[], false)), pending, scans))
  }

  predicate CanReadLocal(s: Store, w: WorkerId, k: Key) {
    var x := SessionOf(s.sessions, w).batch;
    x.Some? && k in x.value.from && x.value.from[k] == w && k !in x.value.got
  }

  function WithGot(x: Session, k: Key, v: Option<Value>): Session {
    if x.batch.Some? then x.(batch := Some(x.batch.value.(got := x.batch.value.got[k := v]))) else x
  }

  function DoReadLocal(s: Store, w: WorkerId, k: Key): Store
    requires CanReadLocal(s, w, k)
  {
    WithSession(s, w, WithGot(SessionOf(s.sessions, w), k, Lookup(s.backend, (w, k))))
  }

  predicate CanFetch(s: Store, w: WorkerId, k: Key) {
    k in Pending(s.sessions, w) && Pending(s.sessions, w)[k].value == None
  }

  /** The remote backend answers a missing key with an empty value. */
  function Fetched(s: Store, w: WorkerId, k: Key): Value {
    if (w, k) in s.backend then s.backend[(w, k)] else []
  }

  function DoFetch(s: Store, w: WorkerId, k: Key): Store
    requires CanFetch(s, w, k)
  {
    var m := Pending(s.sessions, w)[k];
    var v := Fetched(s, m.src, k);
    var s1 := WithMigration(s, w, k, m.(value := Some(v)));
    if m.needed then WithSession(s1, w, WithGot(SessionOf(s1.sessions, w), k, Some(v))) else s1
  }

  predicate CanFlush(s: Store, w: WorkerId, k: Key) {
    k in Pending(s.sessions, w) && Pending(s.sessions, w)[k].value.Some? && !Pending(s.sessions, w)[k].flushed
  }

  function DoFlush(s: Store, w: WorkerId, k: Key): Store
    requires CanFlush(s, w, k)
  {
    var m := Pending(s.sessions, w)[k];
    WithMigration(s.(backend := s.backend[(w, k) := m.value.value]), w, k, m.(flushed := true))
  }

  /** Needed keys are relocated by their own routine, in any order with the
      flush; additional keys only after their chunk has been flushed. */
  predicate UpdateDue(s: Store, w: WorkerId, k: Key) {
    && k in Pending(s.sessions, w)
    && !Pending(s.sessions, w)[k].updated
    && (Pending(s.sessions, w)[k].needed || Pending(s.sessions, w)[k].flushed)
  }

  /** UpdateKey aborts unless the key is in a non-nil map. */
  predicate UpdateSafe(c: Config, s: Store, w: WorkerId, k: Key) {
    HasMap(s.maps, w, c.bucketOf(k)) && k in MapAt(s.maps, w, c.bucketOf(k))
  }

  predicate CanUpdate(c: Config, s: Store, w: WorkerId, k: Key) {
    UpdateDue(s, w, k) && UpdateSafe(c, s, w, k)
  }

  function DoUpdate(c: Config, s: Store, w: WorkerId, k: Key): Store
    requires CanUpdate(c, s, w, k)
  {
    var b := c.bucketOf(k);
    var m := Pending(s.sessions, w)[k].(updated := true);
    WithMigration(s.(maps := WithMap(s.maps, w, b, MapAt(s.maps, w, b)[k := w])), w, k, m)
  }

  predicate CanServe(s: Store, w: WorkerId, result: map<Key, Option<Value>>) {
    var x := SessionOf(s.sessions, w).batch;
    x.Some? && !x.value.served && x.value.got.Keys == x.value.from.Keys && result == x.value.got
  }

  function DoServe(s: Store, w: WorkerId): Store
    requires SessionOf(s.sessions, w).batch.Some?
  {
    var x := SessionOf(s.sessions, w);
    WithSession(s, w, x.(batch := Some(x.batch.value.(served := true))))
  }

  /** Set, merge and delete of a batch key wait for the background routines. */
  predicate WriteDue(s: Store, w: WorkerId, k: Key) {
    var x := SessionOf(s.sessions, w).batch;
    x.Some? && x.value.served && k in x.value.from && Drained(s, w)
  }

  /** InsertOrUpdateKey and RemoveKey abort on a nil map, and RemoveKey aborts on
      an unknown key. */
  predicate WriteSafe(c: Config, s: Store, w: WorkerId, k: Key, op: Op) {
    HasMap(s.maps, w, c.bucketOf(k)) && (op.Drop? ==> k in MapAt(s.maps, w, c.bucketOf(k)))
  }

  predicate CanWrite(c: Config, s: Store, w: WorkerId, k: Key, op: Op) {
    WriteDue(s, w, k) && WriteSafe(c, s, w, k, op)
  }

  function DoWrite(c: Config, s: Store, w: WorkerId, k: Key, op: Op): Store
    requires CanWrite(c, s, w, k, op)
  {
    var b := c.bucketOf(k);
    var m := MapAt(s.maps, w, b);
    match op
    case Put(v) => s.(maps := WithMap(s.maps, w, b, m[k := w]), backend := s.backend[(w, k) := v])
    case Append(v) => s.(maps := WithMap(s.maps, w, b, m[k := w]), backend := s.backend[(w, k) := Fetched(s, w, k) + v])
    case Drop => s.(maps := WithMap(s.maps, w, b, m - {k}), backend := s.backend - {(w, k)})
  }

  predicate CanEnd(s: Store, w: WorkerId) {
    SessionOf(s.sessions, w).batch.Some? && SessionOf(s.sessions, w).batch.value.served
  }

  function DoEnd(s: Store, w: WorkerId): Store {
    WithSession(s, w, SessionOf(s.sessions, w).(batch := None))
  }

  // --------------------------------------------------- eventual migration

  /** Keys of bucket b that a scan for cancelling worker x may collect. */
  function Eligible(s: Store, w: WorkerId, x: WorkerId, dup: set<Key>, b: Bucket): set<Key> {
    set k | k in MapAt(s.maps, w, b) && MapAt(s.maps, w, b)[k] == x && k !in dup
  }

  /** What one scan of the affected buckets of x returns, for any iteration
      order of the key maps. */
  ghost predicate ScanResult(c: Config, s: Store, w: WorkerId, x: WorkerId, dup: set<Key>,
                             keys: set<Key>, finished: set<(WorkerId, Bucket)>, allDone: bool)
  {
    var ev := EventualOf(s, w);
    && x in ev.affected
    && (forall k | k in keys ::
          exists b :: b in ev.affected[x] && (x, b) !in ev.finished && k in Eligible(s, w, x, dup, b))
    && ev.finished <= finished
    && (forall p | p in finished - ev.finished ::
          p.0 == x && p.1 in ev.affected[x] && Eligible(s, w, x, dup, p.1) <= keys)
    && (allDone ==> forall b | b in ev.affected[x] :: (x, b) in finished)
    && (!allDone ==> c.maxKeys > 0 && |keys| == c.maxKeys)
  }

  /** A scan starts after the needed keys fetched from the same worker are flushed. */
  predicate ScanDue(s: Store, w: WorkerId, x: WorkerId) {
    var ses := SessionOf(s.sessions, w);
    && x in ses.scans && ses.scans[x].Waiting?
    && (forall k | k in ses.scans[x].dup && k in ses.pending :: ses.pending[k].flushed)
  }

  /** The bucket locks are there, and so are the key maps. When the last
      cancelling worker has been counted the locks are gone, and a scan that
      starts after that fails on a nil lock. */
  predicate ScanSafe(s: Store, w: WorkerId, x: WorkerId) {
    var ev := EventualOf(s, w);
    && ev.enabled && x in ev.affected
    && (forall b | b in ev.affected[x] && (x, b) !in ev.finished :: HasMap(s.maps, w, b))
  }

  ghost predicate CanStartScan(c: Config, s: Store, w: WorkerId, x: WorkerId, keys: set<Key>,
                               finished: set<(WorkerId, Bucket)>, allDone: bool)
  {
    && ScanDue(s, w, x) && ScanSafe(s, w, x)
    && ScanResult(c, s, w, x, SessionOf(s.sessions, w).scans[x].dup, keys, finished, allDone)
  }

  function DoStartScan(s: Store, w: WorkerId, x: WorkerId, keys: set<Key>,
                       finished: set<(WorkerId, Bucket)>, allDone: bool): Store
  {
    var ses := SessionOf(s.sessions, w);
    var more := map k | k in keys :: Migration(x, false, None, false, false);
    WithSession(s, w, ses.(pending := ses.pending + more, scans := ses.scans[x := Running(keys, allDone)]))
      .(eventual := s.eventual[w := EventualOf(s, w).(finished := finished)])
  }

  predicate CanEndScan(s: Store, w: WorkerId, x: WorkerId) {
    var ses := SessionOf(s.sessions, w);
    && x in ses.scans && ses.scans[x].Running?
    && forall k | k in ses.scans[x].keys :: k !in ses.pending
  }

  /** A worker that is fully migrated is counted once; the last one ends the
      migration. */
  function CountDone(ev: Eventual, x: WorkerId): Eventual {
    if x in ev.done then ev
    else if ev.remaining - 1 == 0 then
      ev.(done := ev.done + {x}, remaining := 0, enabled := false, finished := {})
    else ev.(done := ev.done + {x}, remaining := ev.remaining - 1)
  }

  function DoEndScan(s: Store, w: WorkerId, x: WorkerId): Store
    requires CanEndScan(s, w, x)
  {
    var ses := SessionOf(s.sessions, w);
    var s1 := WithSession(s, w, ses.(scans := ses.scans - {x}));
    if ses.scans[x].allDone then s1.(eventual := s.eventual[w := CountDone(EventualOf(s, w), x)]) else s1
  }

  /** The message finds the previous migration complete and no call of
      fetchAdditionalKeys outstanding. */
  predicate CanSetMeta(s: Store, w: WorkerId, affected: map<WorkerId, seq<Bucket>>) {
    && affected != map[]
    && w !in affected
    && EventualOf(s, w).remaining == 0
    && SessionOf(s.sessions, w).scans == map[]
  }

  function DoSetMeta(s: Store, w: WorkerId, affected: map<WorkerId, seq<Bucket>>): Store {
    s.(eventual := s.eventual[w := Eventual(affected, {}, {}, |affected|, true, true)])
  }

  // --------------------------------------------------------- bucket moves

  function Outdated(s: Store, w: WorkerId): map<WorkerId, Eventual> {
    s.eventual[w := EventualOf(s, w).(current := false)]
  }

  predicate Moves(m: Maps, w: WorkerId, newTable: seq<WorkerId>, b: Bucket) {
    b < |newTable| && (w, b) in m.table && m.table[(w, b)].owner == w && newTable[b] != w
  }

  /** The sender leaves between two batches. The lookup table of a bucket to be
      moved must have its key map. */
  predicate CanSend(c: Config, s: Store, w: WorkerId, newTable: seq<WorkerId>) {
    && SessionOf(s.sessions, w).batch == None
    && |newTable| == c.numBuckets
    && (forall b | 0 <= b < c.numBuckets && Moves(s.maps, w, newTable, b) ::
          && HasMap(s.maps, w, b) && b in s.maps.home && s.maps.home[b] == At(w)
          && (newTable[b], b) in s.maps.table)
  }

  /** No background routine of a key that is about to leave is outstanding. */
  predicate RoutinesDone(c: Config, s: Store, w: WorkerId, newTable: seq<WorkerId>) {
    forall k | k in Pending(s.sessions, w) :: !Moves(s.maps, w, newTable, c.bucketOf(k))
  }

  predicate CanDepart(c: Config, s: Store, w: WorkerId, newTable: seq<WorkerId>) {
    CanSend(c, s, w, newTable) && RoutinesDone(c, s, w, newTable)
  }

  function Leaving(c: Config, m: Maps, w: WorkerId, newTable: seq<WorkerId>): set<Bucket> {
    set b | 0 <= b < c.numBuckets && Moves(m, w, newTable, b)
  }

  function DepartMaps(c: Config, m: Maps, w: WorkerId, newTable: seq<WorkerId>): Maps
  {
    var gone := Leaving(c, m, w, newTable);
    Maps(
      map p | p in m.table :: if p.0 == w && p.1 in gone then Entry(newTable[p.1], None) else m.table[p],
      m.flight + (map b | b in gone :: MapAt(m, w, b)),
      m.home + OnTheWay(w, newTable, gone))
  }

  function OnTheWay(w: WorkerId, newTable: seq<WorkerId>, buckets: set<Bucket>): map<Bucket, Home> {
    map b | b in buckets && b < |newTable| :: Flying(w, newTable[b])
  }

  function DoDepart(c: Config, s: Store, w: WorkerId, newTable: seq<WorkerId>): Store
    requires CanSend(c, s, w, newTable)
  {
    s.(eventual := Outdated(s, w), maps := DepartMaps(c, s.maps, w, newTable))
  }

  /** DeserializeMigratingKeyMaps aborts on a bucket with a non-empty map. */
  predicate CanInstall(m: Maps, w: WorkerId, src: WorkerId, buckets: set<Bucket>) {
    forall b | b in buckets ::
      && b in m.home && m.home[b] == Flying(src, w) && b in m.flight
      && (w, b) in m.table && MapAt(m, w, b) == map[]
  }

  function InstallMaps(m: Maps, w: WorkerId, src: WorkerId, buckets: set<Bucket>): Maps
    requires CanInstall(m, w, src, buckets)
  {
    Maps(
      map p | p in m.table :: if p.0 == w && p.1 in buckets then Entry(w, Some(m.flight[p.1])) else m.table[p],
      m.flight - buckets,
      m.home + (map b | b in buckets :: At(w)))
  }

  function DoInstall(s: Store, w: WorkerId, src: WorkerId, buckets: set<Bucket>): Store
    requires CanInstall(s.maps, w, src, buckets)
  {
    s.(eventual := Outdated(s, w), maps := InstallMaps(s.maps, w, src, buckets))
  }

  predicate CanDeploy(c: Config, m: Maps, w: WorkerId, newTable: seq<WorkerId>) {
    |newTable| == c.numBuckets && forall b | 0 <= b < c.numBuckets :: (w, b) !in m.table
  }

  /** DeserializeKeyLookupTableV2: empty maps for the buckets of the new task. */
  function DeployMaps(m: Maps, w: WorkerId, newTable: seq<WorkerId>): Maps {
    m.(table := m.table + map b | 0 <= b < |newTable| ::
         (w, b) := Entry(newTable[b], if newTable[b] == w then Some(map[]) else None))
  }

  function DoDeploy(s: Store, w: WorkerId, newTable: seq<WorkerId>): Store {
    s.(maps := DeployMaps(s.maps, w, newTable))
  }

  ghost predicate Step(c: Config, s: Store, a: Action, s': Store) {
    match a
    case Begin(w, keys) => CanBegin(c, s, w, keys) && s' == DoBegin(c, s, w, keys)
    case ReadLocal(w, k) => CanReadLocal(s, w, k) && s' == DoReadLocal(s, w, k)
    case Fetch(w, k) => CanFetch(s, w, k) && s' == DoFetch(s, w, k)
    case Flush(w, k) => CanFlush(s, w, k) && s' == DoFlush(s, w, k)
    case Update(w, k) => CanUpdate(c, s, w, k) && s' == DoUpdate(c, s, w, k)
    case Serve(w, r) => CanServe(s, w, r) && s' == DoServe(s, w)
    case Write(w, k, op) => CanWrite(c, s, w, k, op) && s' == DoWrite(c, s, w, k, op)
    case End(w) => CanEnd(s, w) && s' == DoEnd(s, w)
    case StartScan(w, x, keys, fin, all) =>
      CanStartScan(c, s, w, x, keys, fin, all) && s' == DoStartScan(s, w, x, keys, fin, all)
    case EndScan(w, x) => CanEndScan(s, w, x) && s' == DoEndScan(s, w, x)
    case SetMeta(w, aff) => CanSetMeta(s, w, aff) && s' == DoSetMeta(s, w, aff)
    case Depart(w, t) => CanDepart(c, s, w, t) && s' == DoDepart(c, s, w, t)
    case Install(w, src, bs) => CanInstall(s.maps, w, src, bs) && s' == DoInstall(s, w, src, bs)
    case Deploy(w, t) => CanDeploy(c, s.maps, w, t) && s' == DoDeploy(s, w, t)
  }
}

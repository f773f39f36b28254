/**
 The whole system: the keyed state and the reconfiguration protocol running
 together, with the coordinator's owner history and its eventual migration
 messages.

 Here the key maps really travel on the peer channels, and batches are started
 only by records that arrive on a channel. Every fatal exit of the lookup table,
 the state service and the key map transfer is a state (aborted) and not a guard.
 A sender that gives key maps away while a routine of one of their keys is
 outstanding has failed too; the model does not follow it any further. One guard
 is left: a migration message finds no scan outstanding.
 */
module Cluster {
  import opened Types
  import opened KeyedStore
  import opened StoreInvariant
  import opened EventualMigration
  import opened RecordFlow

  datatype Sys = Sys(
    store: Store,
    flow: Flow,
    hand: map<WorkerId, set<Bucket>>,      // buckets of the records a task works on
    history: map<Bucket, set<WorkerId>>,   // workers that ever owned the bucket
    told: set<WorkerId>,                   // workers that got this reconfiguration's message
    gone: set<WorkerId>,                   // workers removed by earlier reconfigurations
    aborted: bool)                         // a worker has failed

  datatype SysAction =
    | State(a: Action)                     // a routine of the state service
    | StartBatch(w: WorkerId, keys: set<Key>)
    | Move(fa: FlowAction)                 // a step of the protocol without state
    | Repartition(next: Table, updated: set<WorkerId>)
    | NewTask(w: WorkerId)
    | HandOver(w: WorkerId)
    | TakeOver(src: WorkerId, dst: WorkerId)
    | Receive(u: Upstream, w: WorkerId, r: Record)
    | ReceivePeer(src: WorkerId, dst: WorkerId, r: Record)
    | Rest(w: WorkerId)
    | Message(w: WorkerId, affected: map<WorkerId, seq<Bucket>>)
    | Complete

  function Hand(s: Sys, w: WorkerId): set<Bucket> {
    if w in s.hand then s.hand[w] else {}
  }

  function History(s: Sys, b: Bucket): set<WorkerId> {
    if b in s.history then s.history[b] else {}
  }

  function Removed(f: Flow): set<WorkerId> {
    f.active - f.updated
  }

  /** The buckets of the key map message that dst reads next. */
  function Arriving(f: Flow, src: WorkerId, dst: WorkerId): set<Bucket> {
    if CanConnect(f, src, dst) then Peer(f, src, dst)[0].buckets else {}
  }

  /** Bucket b of worker w may have keys at the removed worker x. */
  predicate Affects(s: Sys, w: WorkerId, x: WorkerId, b: Bucket) {
    b < |s.flow.next| && s.flow.next[b] == w && x in Removed(s.flow) && x in History(s, b)
  }

  ghost predicate IsMessage(s: Sys, w: WorkerId, affected: map<WorkerId, seq<Bucket>>) {
    && (forall x | x in affected :: affected[x] != [])
    && (forall x, b | x in affected && b in affected[x] :: Affects(s, w, x, b))
    && (forall x, b | Affects(s, w, x, b) :: x in affected && b in affected[x])
  }

  /** A step of the state, or the fatal exit of its worker. */
  ghost predicate Try(c: Config, s: Sys, a: Action, s': Sys) {
    if exists t :: Step(c, s.store, a, t) then
      Step(c, s.store, a, s'.store) && s'.aborted == s.aborted
    else
      s'.store == s.store && s'.aborted
  }

  /** A routine of the state service, after the waits and tests that come before
      anything fatal. */
  predicate Due(s: Store, a: Action) {
    match a
    case Update(w, k) => UpdateDue(s, w, k)
    case Write(w, k, _) => WriteDue(s, w, k)
    case StartScan(w, x, _, _, _) => ScanDue(s, w, x)
    case _ => a.ReadLocal? || a.Fetch? || a.Flush? || a.Serve? || a.End? || a.EndScan?
  }

  /** It does not run into a nil key map, an unknown key or a nil lock. */
  predicate Safe(c: Config, s: Store, a: Action) {
    match a
    case Update(w, k) => UpdateSafe(c, s, w, k)
    case Write(w, k, op) => WriteSafe(c, s, w, k, op)
    case StartScan(w, x, _, _, _) => ScanSafe(s, w, x)
    case _ => true
  }

  predicate Stateless(fa: FlowAction) {
    || fa.Emit? || fa.StartForward? || fa.Notify? || fa.WaitConnect? || fa.StartSwitch?
    || fa.Switch? || fa.StartDrain? || fa.Forward? || fa.TakeBarrier?
  }

  // --------------------------------------------------------------- steps

  ghost predicate StateStep(c: Config, s: Sys, x: Action, s': Sys) {
    && s' == s.(store := s'.store, aborted := s'.aborted)
    && Due(s.store, x)
    && if Safe(c, s.store, x) then Step(c, s.store, x, s'.store) && s'.aborted == s.aborted
       else s'.store == s.store && s'.aborted
  }

  /** A batch asks for keys of the records at hand, after the wait group is zero. */
  ghost predicate BatchStep(c: Config, s: Sys, w: WorkerId, keys: set<Key>, s': Sys) {
    && s' == s.(store := s'.store, aborted := s'.aborted)
    && SessionOf(s.store.sessions, w).batch == None && Drained(s.store, w)
    && (forall k | k in keys :: c.bucketOf(k) in Hand(s, w))
    && Try(c, s, Begin(w, keys), s')
  }

  /** A removed worker is never available again. */
  ghost predicate RepartitionStep(s: Sys, next: Table, updated: set<WorkerId>, s': Sys) {
    && updated !! s.gone
    && FlowStep(s.flow, Start(next, updated), s'.flow)
    && s' == s.(flow := s'.flow, history := map b | 0 <= b < |next| :: History(s, b) + {next[b]})
  }

  ghost predicate NewTaskStep(c: Config, s: Sys, w: WorkerId, s': Sys) {
    && s' == s.(store := s'.store, flow := s'.flow, aborted := s'.aborted)
    && FlowStep(s.flow, DeployTask(w), s'.flow)
    && Try(c, s, Deploy(w, s.flow.next), s')
  }

  /** The main loop enters the transition phase between two work units. It does
      not wait for the background routines of the leaving keys, and fails if one
      is outstanding. */
  ghost predicate HandOverStep(c: Config, s: Sys, w: WorkerId, s': Sys) {
    && SessionOf(s.store.sessions, w).batch == None && Hand(s, w) == {} && CanSendMaps(s.flow, w)
    && if RoutinesDone(c, s.store, w, s.flow.next) then CleanHandOver(c, s, w, s') else s' == s.(aborted := true)
  }

  ghost predicate CleanHandOver(c: Config, s: Sys, w: WorkerId, s': Sys) {
    && s' == s.(store := s'.store, flow := s'.flow, aborted := s'.aborted)
    && FlowStep(s.flow, SendMaps(w), s'.flow)
    && Try(c, s, Depart(w, s.flow.next), s')
  }

  ghost predicate TakeOverStep(c: Config, s: Sys, src: WorkerId, dst: WorkerId, s': Sys) {
    && s' == s.(store := s'.store, flow := s'.flow, aborted := s'.aborted)
    && FlowStep(s.flow, Connect(src, dst), s'.flow)
    && Try(c, s, Install(dst, src, Arriving(s.flow, src, dst)), s')
  }

  ghost predicate ReceiveStep(s: Sys, fa: FlowAction, w: WorkerId, b: Bucket, s': Sys) {
    && SessionOf(s.store.sessions, w).batch == None
    && FlowStep(s.flow, fa, s'.flow)
    && s' == s.(flow := s'.flow, hand := s.hand[w := Hand(s, w) + {b}])
  }

  /** In eventual mode every worker with an affected bucket gets one message. That
      it finds no scan outstanding is a guard. */
  ghost predicate MessageStep(c: Config, s: Sys, w: WorkerId, affected: map<WorkerId, seq<Bucket>>, s': Sys) {
    && s' == s.(store := s'.store, told := s.told + {w}, aborted := s'.aborted)
    && c.eventual && s.flow.stage == Draining && w !in s.told
    && (exists x: WorkerId, b: Bucket :: Affects(s, w, x, b)) && IsMessage(s, w, affected)
    && SessionOf(s.store.sessions, w).scans == map[]
    && Try(c, s, SetMeta(w, affected), s')
  }

  /** In eventual mode the coordinator waits for every worker that got a message. */
  ghost predicate CompleteStep(c: Config, s: Sys, s': Sys) {
    && FlowStep(s.flow, Finish, s'.flow)
    && (c.eventual ==> forall w: WorkerId, x: WorkerId, b: Bucket | Affects(s, w, x, b) :: w in s.told)
    && (forall w | w in s.told :: EventualOf(s.store, w).remaining == 0)
    && s' == s.(flow := s'.flow, told := {}, gone := s.gone + Removed(s.flow))
  }

  ghost predicate SysStep(c: Config, s: Sys, a: SysAction, s': Sys) {
    && !s.aborted
    && match a
    case State(x) => StateStep(c, s, x, s')
    case StartBatch(w, keys) => BatchStep(c, s, w, keys, s')
    case Move(fa) => Stateless(fa) && FlowStep(s.flow, fa, s'.flow) && s' == s.(flow := s'.flow)
    case Repartition(next, updated) => RepartitionStep(s, next, updated, s')
    case NewTask(w) => NewTaskStep(c, s, w, s')
    case HandOver(w) => HandOverStep(c, s, w, s')
    case TakeOver(src, dst) => TakeOverStep(c, s, src, dst, s')
    case Receive(u, w, r) => ReceiveStep(s, Process(u, w, r), w, r.bucket, s')
    case ReceivePeer(src, dst, r) => ReceiveStep(s, ProcessPeer(src, dst, r), dst, r.bucket, s')
    case Rest(w) => SessionOf(s.store.sessions, w).batch == None && s' == s.(hand := s.hand - {w})
    case Message(w, affected) => MessageStep(c, s, w, affected, s')
    case Complete => CompleteStep(c, s, s')
  }

  // ----------------------------------------------------------- invariant

  /** The tables of the workers follow the protocol. */
  ghost predicate OwnerOk(s: Sys, w: WorkerId, b: Bucket) {
    var t, f := s.store.maps.table, s.flow;
    && ((w, b) in t <==> w in f.deployed)
    && ((w, b) in t && t[(w, b)].owner == w && b < |f.table| == |f.next| ==>
          Lookup(f.home, b) == Some(At(w)) || (f.stage != Idle && f.next[b] == w && f.table[b] != w))
  }

  ghost predicate Coupled(c: Config, s: Sys) {
    && |s.flow.table| == c.numBuckets
    && s.store.maps.home == s.flow.home
    && forall w: WorkerId, b: Bucket | b < c.numBuckets :: OwnerOk(s, w, b)
  }

  ghost predicate HandsOk(s: Sys) {
    forall w: WorkerId, b: Bucket | b in Hand(s, w) :: Lookup(s.flow.home, b) == Some(At(w))
  }

  /** Whoever owns, or is to own, a bucket is in its history. */
  ghost predicate HistoryOk(s: Sys, b: Bucket) {
    && (b < |s.flow.table| ==> s.flow.table[b] in History(s, b))
    && (b < |s.flow.next| && s.flow.stage != Idle ==> s.flow.next[b] in History(s, b))
  }

  /** Whoever stores a key is in the history of its bucket. */
  ghost predicate LocatedInHistory(c: Config, s: Sys, k: Key) {
    Location(c, s.store.maps, k).Some? ==> Location(c, s.store.maps, k).value in History(s, c.bucketOf(k))
  }

  ghost predicate SourcesOk(c: Config, s: Sys) {
    forall w: WorkerId, k: Key | k in Pending(s.store.sessions, w) ::
      Pending(s.store.sessions, w)[k].src in History(s, c.bucketOf(k))
  }

  /** Nothing of worker x is needed any more: what is still listed there or being
      moved off it is already stored at its new place. */
  ghost predicate Retired(c: Config, s: Store, x: WorkerId) {
    && (forall k: Key | Location(c, s.maps, k) == Some(x) :: Departing(c, s, x, k))
    && (forall w: WorkerId, k: Key | k in Pending(s.sessions, w) && Pending(s.sessions, w)[k].src == x ::
          Pending(s.sessions, w)[k].flushed)
  }

  ghost predicate Departing(c: Config, s: Store, x: WorkerId, k: Key) {
    var h := HomeOf(c, s.maps, k);
    h.Some? && h.value.At? && k in Pending(s.sessions, h.value.w) && Pending(s.sessions, h.value.w)[k].src == x
  }

  ghost predicate GoneOk(c: Config, s: Sys) {
    && s.flow.active !! s.gone
    && (s.flow.stage != Idle ==> s.flow.updated !! s.gone)
    && (c.eventual ==> forall x | x in s.gone :: Retired(c, s.store, x))
  }

  ghost predicate ToldOk(s: Sys, w: WorkerId) {
    if w in s.told then
      s.flow.stage == Draining && EventualOf(s.store, w).current && IsMessage(s, w, EventualOf(s.store, w).affected)
    else
      EventualOf(s.store, w).remaining == 0
  }

  ghost predicate EventualOk(c: Config, s: Sys) {
    forall w: WorkerId :: WorkerEventualOk(c, s, w)
  }

  ghost predicate WorkerEventualOk(c: Config, s: Sys, w: WorkerId) {
    ProgressOk(s.store, w) && CountsOk(c, s.store, w) && SourceDone(c, s.store, w) && ToldOk(s, w)
  }

  ghost predicate SysOk(c: Config, s: Sys, model: Model) {
    && StoreOk(c, s.store, model) && FlowOk(s.flow)
    && Coupled(c, s) && HandsOk(s)
    && (forall b: Bucket :: HistoryOk(s, b)) && (forall k: Key :: LocatedInHistory(c, s, k)) && SourcesOk(c, s)
    && GoneOk(c, s) && EventualOk(c, s)
  }
}

/**
 Two runs in which a sender gives a key map away too early. A scale-down starts,
 and the worker that is to be removed still fetches a key. It ends its batch and
 enters the transition phase while a routine of the key is outstanding.
 */
module EarlyHandOver {
  import opened Types
  import opened KeyedStore
  import opened StoreInvariant
  import opened StoreRefinement
  import opened RecordFlow
  import opened Cluster
  import opened ClusterInvariant
  import opened ClusterProperties
  import opened SysRuns
  import opened Reconfiguration
  import opened ScaleUp

  const BE: Backends := map[(0, K) := V]

  /** The scale-down has started, and worker 1 has the bucket with K. */
  ghost predicate ScalingDown(c: Config, r: States, s: Sys) {
    && Closed(c, r) && Sound(c, r) && r(s, map[K := V]) && !s.aborted && SessionOf(s.store.sessions, 0) == IDLE
    && s.flow.stage == Forwarding && s.flow.table == [0, 1] && s.flow.next == [0, 0]
    && PhaseOf(s.flow, 1) == Normal
  }

  lemma StartsDown(c: Config, r: States, s: Sys) returns (s': Sys)
    requires c == Setup(c.maxKeys, c.eventual) && Ready(c, r, s, map[K := V]) && Scaled(s)
    ensures ScalingDown(c, r, s') && Resting(s') && NoItems(s'.flow) && Holds(s'.store, IDLE, map[K := 0], BE)
    ensures CanEmit(s'.flow, 0, Record(0, 1)) && s'.flow.route[0][1] == 1
  {
    Knows(c, r, s, map[K := V]);
    IdlePeers(s.flow);
    s' := Prepares(c, r, s, map[K := V], [0, 0], {0});
    assert PhaseOf(s'.flow, 1) == PhaseOf(s.flow, 1);
    assert EventualOf(s.store, 1) == NO_EVENTUAL;
    RoutedToSecond(c, r, s', map[K := V]);
  }

  /** Worker 1 has fetched K. */
  lemma FetchesDown(c: Config, r: States) returns (s: Sys)
    requires c == Setup(c.maxKeys, c.eventual) && Closed(c, r) && Sound(c, r) && r(Alone(), map[])
    ensures ScalingDown(c, r, s) && Holds(s.store, OnBatch(GOT, false, OnWay(Some(V), false, false)), map[K := 0], BE)
  {
    var s1 := Scales(c, r);
    var s2 := StartsDown(c, r, s1);
    s := Fetching(c, r, s2, map[K := V], BE);
    assert SessionOf(s.store.sessions, 0) == SessionOf(s2.store.sessions, 0);
  }

  /** Worker 1 has ended its batch and is told to give its bucket away. */
  ghost predicate AboutToSend(c: Config, r: States, s: Sys, pending: map<Key, Migration>, keys: map<Key, WorkerId>) {
    && Sound(c, r) && r(s, map[K := V]) && !s.aborted && SessionOf(s.store.sessions, 0) == IDLE
    && Holds(s.store, Session(None, pending, map[]), keys, BE) && Hand(s, 1) == {}
    && CanSendMaps(s.flow, 1) && s.flow.table == [0, 1] && s.flow.next == [0, 0]
  }

  lemma EndsEarly(c: Config, r: States, s: Sys, pending: map<Key, Migration>, keys: map<Key, WorkerId>)
    returns (s': Sys)
    requires ScalingDown(c, r, s) && Holds(s.store, OnBatch(GOT, false, pending), keys, BE)
    ensures AboutToSend(c, r, s', pending, keys)
  {
    var s1 := Leaves(c, r, s, map[K := V], pending, keys, BE);
    assert SessionOf(s1.store.sessions, 0) == SessionOf(s.store.sessions, 0);
    assert s1.flow.table[1] == 1 && s1.flow.next[1] != 1;
    s' := s1.(flow := s1.flow.(phase := s1.flow.phase[1 := Notified]));
    Go(c, r, s1, map[K := V], Move(Notify(1)), s');
  }

  /** It sends the key map with a routine of K outstanding. */
  lemma SendsEarly(c: Config, r: States, s: Sys, pending: map<Key, Migration>, keys: map<Key, WorkerId>)
    requires c == Setup(c.maxKeys, c.eventual) && AboutToSend(c, r, s, pending, keys) && K in pending
    ensures CanSend(c, s.store, 1, [0, 0]) && Moves(s.store.maps, 1, [0, 0], 1)
    ensures StoreOk(c, s.store, map[K := V]) && SysStep(c, s, HandOver(1), s.(aborted := true))
  {
    Knows(c, r, s, map[K := V]);
    SendProceeds(c, s, map[K := V], 1);
    MovesBucket(c, s, map[K := V]);
    FailsEarly(c, s, 1, K);
  }

  lemma MovesBucket(c: Config, s: Sys, model: Model)
    requires StoreOk(c, s.store, model) && Coupled(c, s) && FlowOk(s.flow) && CanSendMaps(s.flow, 1)
    requires c.numBuckets == 2 && s.flow.table == [0, 1] && s.flow.next == [0, 0]
    ensures Moves(s.store.maps, 1, [0, 0], 1)
  {
    HandsOverMoved(c, s, 1, 1);
  }

  lemma FailsEarly(c: Config, s: Sys, w: WorkerId, k: Key)
    requires !s.aborted && SessionOf(s.store.sessions, w).batch == None && Hand(s, w) == {} && CanSendMaps(s.flow, w)
    requires k in Pending(s.store.sessions, w) && Moves(s.store.maps, w, s.flow.next, c.bucketOf(k))
    ensures SysStep(c, s, HandOver(w), s.(aborted := true))
  {
    assert !RoutinesDone(c, s.store, w, s.flow.next);
  }

  /** The lookup update is outstanding when the key map leaves: it finds the map
      gone and aborts. */
  lemma EarlyUpdateRun(n: int, eventual: bool) returns (trace: seq<Sys>, acts: seq<SysAction>)
    ensures IsSysRun(Setup(n, eventual), trace, acts) && |acts| > 0 && trace[|acts|].aborted
    ensures acts[|acts| - 1] == HandOver(1) && CanSend(Setup(n, eventual), trace[|acts| - 1].store, 1, [0, 0])
    ensures var s := DoDepart(Setup(n, eventual), trace[|acts| - 1].store, 1, [0, 0]);
            UpdateDue(s, 1, K) && !UpdateSafe(Setup(n, eventual), s, 1, K)
  {
    var c := Setup(n, eventual);
    AllStates(c);
    var r := AllReached(c);
    var s1 := FetchesDown(c, r);
    var pending := OnWay(Some(V), false, false);
    var s := EndsEarly(c, r, s1, pending, map[K := 0]);
    SendsEarly(c, r, s, pending, map[K := 0]);
    DepartedUpdateAborts(c, s.store, 1, [0, 0], K);
    trace, acts := EndsWith(c, s, map[K := V], HandOver(1), s.(aborted := true));
  }

  /** Worker 1 has listed K as its own, and has not stored it yet. */
  lemma UpdatesDown(c: Config, r: States) returns (s: Sys)
    requires c == Setup(c.maxKeys, c.eventual) && Closed(c, r) && Sound(c, r) && r(Alone(), map[])
    ensures AboutToSend(c, r, s, OnWay(Some(V), false, true), map[K := 1])
  {
    var s1 := FetchesDown(c, r);
    UpdatesK(c, s1.store, BE, false);
    var s2 := s1.(store := DoUpdate(c, s1.store, 1, K));
    Work(c, r, s1, map[K := V], Update(1, K), s2.store);
    s := EndsEarly(c, r, s2, OnWay(Some(V), false, true), map[K := 1]);
  }

  /** What worker 0 then reads. */
  lemma LosesValue(c: Config, s: Store)
    requires c == Setup(c.maxKeys, c.eventual) && ValidConfig(c) && StoreOk(c, s, map[K := V])
    requires CanSend(c, s, 1, [0, 0]) && Moves(s.maps, 1, [0, 0], 1) && SessionOf(s.sessions, 0) == IDLE
    requires Holds(s, Session(None, OnWay(Some(V), false, true), map[]), map[K := 1], BE)
    ensures Lost(c, s)
  {
    DepartedInstalls(c, s, map[K := V], 1, [0, 0], 1);
    DepartedFlushRead(c, s, map[K := V], 1, [0, 0], {1}, K);
  }

  /** The key map leaves worker 1 and arrives at worker 0, and the next batch there
      is answered with an empty value for K. */
  ghost predicate Lost(c: Config, s: Store) {
    && CanSend(c, s, 1, [0, 0])
    && var s1 := DoDepart(c, s, 1, [0, 0]);
    && CanInstall(s1.maps, 0, 1, {1})
    && var s2 := DoInstall(s1, 0, 1, {1});
    && CanBegin(c, s2, 0, {K})
    && var s3 := DoBegin(c, s2, 0, {K});
    && CanFetch(s3, 0, K)
    && CanServe(DoFetch(s3, 0, K), 0, map[K := Some([])])
  }

  /** The flush is outstanding when the key map leaves: the next read at the new
      owner does not find the value. */
  lemma EarlyFlushRun(n: int, eventual: bool) returns (trace: seq<Sys>, acts: seq<SysAction>)
    ensures IsSysRun(Setup(n, eventual), trace, acts) && |acts| > 0 && trace[|acts|].aborted
    ensures acts[|acts| - 1] == HandOver(1) && ModelAt(acts, |acts| - 1) == map[K := V]
    ensures Lost(Setup(n, eventual), trace[|acts| - 1].store)
  {
    var c := Setup(n, eventual);
    AllStates(c);
    var s := UpdatesDown(c, AllReached(c));
    SendsEarly(c, AllReached(c), s, OnWay(Some(V), false, true), map[K := 1]);
    LosesValue(c, s.store);
    trace, acts := EndsWith(c, s, map[K := V], HandOver(1), s.(aborted := true));
  }
}

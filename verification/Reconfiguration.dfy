/**
 A reconfiguration of a system at rest, from the repartition to the point where
 the coordinator may finish. Whatever the new table is, the steps are there to
 be taken one after the other, no worker fails, and key maps and state are
 carried over as they are.
 */
module Reconfiguration {
  import opened Types
  import opened KeyedStore
  import opened StoreInvariant
  import opened RecordFlow
  import opened Cluster
  import opened ClusterInvariant
  import opened ClusterProperties
  import opened SysRuns

  /** No routine runs and no worker has records at hand. */
  ghost predicate Resting(s: Sys) {
    !s.aborted && forall v: WorkerId :: SessionOf(s.store.sessions, v) == IDLE && Hand(s, v) == {}
  }

  /** Only the tables and the protocol are different. */
  ghost predicate Carried(c: Config, s: Sys, s': Sys) {
    && s' == s.(store := s.store.(maps := s'.store.maps, eventual := s'.store.eventual), flow := s'.flow)
    && (forall v: WorkerId ::
          || EventualOf(s'.store, v) == EventualOf(s.store, v)
          || EventualOf(s'.store, v) == EventualOf(s.store, v).(current := false))
    && (forall b: Bucket | b < c.numBuckets :: KeyMap(s'.store.maps, b) == KeyMap(s.store.maps, b))
  }

  lemma CarriedOn(c: Config, s: Sys, s1: Sys, s2: Sys)
    requires Carried(c, s, s1) && Carried(c, s1, s2)
    ensures Carried(c, s, s2)
  {
    forall v: WorkerId
      ensures || EventualOf(s2.store, v) == EventualOf(s.store, v)
              || EventualOf(s2.store, v) == EventualOf(s.store, v).(current := false)
    {
      assert EventualOf(s1.store, v) == EventualOf(s.store, v)
             || EventualOf(s1.store, v) == EventualOf(s.store, v).(current := false);
    }
    forall b: Bucket | b < c.numBuckets ensures KeyMap(s2.store.maps, b) == KeyMap(s.store.maps, b) {
      assert KeyMap(s1.store.maps, b) == KeyMap(s.store.maps, b);
    }
  }

  lemma StillResting(c: Config, s: Sys, s': Sys)
    requires Resting(s) && Carried(c, s, s')
    ensures Resting(s')
  {
    forall v: WorkerId ensures SessionOf(s'.store.sessions, v) == IDLE && Hand(s', v) == {} {
      assert SessionOf(s.store.sessions, v) == IDLE && Hand(s, v) == {};
    }
  }

  /** A state at rest among those that are closed under steps. */
  ghost predicate Ready(c: Config, r: States, s: Sys, model: Model) {
    Closed(c, r) && Sound(c, r) && r(s, model) && Resting(s)
  }

  // -------------------------------------------------------------- single steps

  lemma Advances(c: Config, r: States, s: Sys, model: Model, fa: FlowAction, f': Flow) returns (s': Sys)
    requires Ready(c, r, s, model) && Stateless(fa) && FlowStep(s.flow, fa, f')
    ensures Ready(c, r, s', model) && Carried(c, s, s') && s'.flow == f'
  {
    s' := s.(flow := f');
    Go(c, r, s, model, Move(fa), s');
    StillResting(c, s, s');
  }

  lemma DeployCarries(c: Config, s: Sys, s': Sys, w: WorkerId)
    requires TablesOk(c, s.store.maps) && CanDeploy(c, s.store.maps, w, s.flow.next)
    requires s' == s.(store := DoDeploy(s.store, w, s.flow.next), flow := s'.flow)
    ensures Carried(c, s, s')
  {
    forall b: Bucket | b < c.numBuckets ensures KeyMap(s'.store.maps, b) == KeyMap(s.store.maps, b) {
      assert BucketOk(c, s.store.maps, b);
      DeployBucket(c, s.store.maps, w, s.flow.next, b);
    }
  }

  lemma DeploySteps(c: Config, s: Sys, w: WorkerId, s': Sys)
    requires !s.aborted && CanDeployTask(s.flow, w) && CanDeploy(c, s.store.maps, w, s.flow.next)
    requires s' == s.(store := DoDeploy(s.store, w, s.flow.next), flow := DoDeployTask(s.flow, w))
    ensures SysStep(c, s, NewTask(w), s')
  {
    assert Step(c, s.store, Deploy(w, s.flow.next), s'.store);
  }

  lemma DeploysTask(c: Config, r: States, s: Sys, model: Model, w: WorkerId) returns (s': Sys)
    requires Ready(c, r, s, model) && CanDeployTask(s.flow, w)
    ensures Ready(c, r, s', model) && Carried(c, s, s') && s'.flow == DoDeployTask(s.flow, w)
  {
    Knows(c, r, s, model);
    DeployProceeds(c, s, w);
    s' := s.(store := DoDeploy(s.store, w, s.flow.next), flow := DoDeployTask(s.flow, w));
    DeploySteps(c, s, w, s');
    DeployCarries(c, s, s', w);
    Go(c, r, s, model, NewTask(w), s');
    StillResting(c, s, s');
  }

  lemma DepartCarries(c: Config, s: Sys, s': Sys, w: WorkerId)
    requires TablesOk(c, s.store.maps) && CanSend(c, s.store, w, s.flow.next)
    requires s' == s.(store := DoDepart(c, s.store, w, s.flow.next), flow := s'.flow)
    ensures Carried(c, s, s')
  {
    forall b: Bucket | b < c.numBuckets ensures KeyMap(s'.store.maps, b) == KeyMap(s.store.maps, b) {
      assert BucketOk(c, s.store.maps, b);
      DepartBucket(c, s.store.maps, w, s.flow.next, b);
    }
  }

  lemma DepartSteps(c: Config, s: Sys, w: WorkerId, s': Sys)
    requires !s.aborted && Hand(s, w) == {} && CanSendMaps(s.flow, w) && CanDepart(c, s.store, w, s.flow.next)
    requires s' == s.(store := DoDepart(c, s.store, w, s.flow.next), flow := DoSendMaps(s.flow, w))
    ensures SysStep(c, s, HandOver(w), s')
  {
    assert Step(c, s.store, Depart(w, s.flow.next), s'.store);
  }

  lemma HandsOver(c: Config, r: States, s: Sys, model: Model, w: WorkerId) returns (s': Sys)
    requires Ready(c, r, s, model) && CanSendMaps(s.flow, w)
    ensures Ready(c, r, s', model) && Carried(c, s, s') && s'.flow == DoSendMaps(s.flow, w)
  {
    Knows(c, r, s, model);
    SendProceeds(c, s, model, w);
    s' := s.(store := DoDepart(c, s.store, w, s.flow.next), flow := DoSendMaps(s.flow, w));
    DepartSteps(c, s, w, s');
    DepartCarries(c, s, s', w);
    Go(c, r, s, model, HandOver(w), s');
    StillResting(c, s, s');
  }

  lemma InstallCarries(c: Config, s: Sys, s': Sys, src: WorkerId, dst: WorkerId, buckets: set<Bucket>)
    requires TablesOk(c, s.store.maps) && CanInstall(s.store.maps, dst, src, buckets)
    requires s' == s.(store := DoInstall(s.store, dst, src, buckets), flow := s'.flow)
    ensures Carried(c, s, s')
  {
    forall b: Bucket | b < c.numBuckets ensures KeyMap(s'.store.maps, b) == KeyMap(s.store.maps, b) {
      assert BucketOk(c, s.store.maps, b);
      InstallBucket(c, s.store.maps, dst, src, buckets, b);
    }
  }

  lemma InstallSteps(c: Config, s: Sys, src: WorkerId, dst: WorkerId, s': Sys)
    requires !s.aborted && CanConnect(s.flow, src, dst)
    requires CanInstall(s.store.maps, dst, src, Arriving(s.flow, src, dst))
    requires s' == s.(store := DoInstall(s.store, dst, src, Arriving(s.flow, src, dst)),
                      flow := DoConnect(s.flow, src, dst))
    ensures SysStep(c, s, TakeOver(src, dst), s')
  {
    assert Step(c, s.store, Install(dst, src, Arriving(s.flow, src, dst)), s'.store);
  }

  lemma TakesOver(c: Config, r: States, s: Sys, model: Model, src: WorkerId, dst: WorkerId) returns (s': Sys)
    requires Ready(c, r, s, model) && CanConnect(s.flow, src, dst)
    ensures Ready(c, r, s', model) && Carried(c, s, s') && s'.flow == DoConnect(s.flow, src, dst)
  {
    Knows(c, r, s, model);
    InstallProceeds(c, s, model, src, dst);
    s' := s.(store := DoInstall(s.store, dst, src, Arriving(s.flow, src, dst)), flow := DoConnect(s.flow, src, dst));
    InstallSteps(c, s, src, dst, s');
    InstallCarries(c, s, s', src, dst, Arriving(s.flow, src, dst));
    Go(c, r, s, model, TakeOver(src, dst), s');
    StillResting(c, s, s');
  }

  // ------------------------------------------------- the steps of the coordinator

  function NewHistory(s: Sys, next: Table): map<Bucket, set<WorkerId>> {
    map b | 0 <= b < |next| :: History(s, b) + {next[b]}
  }

  lemma Repartitions(c: Config, r: States, s: Sys, model: Model, next: Table, updated: set<WorkerId>) returns (s': Sys)
    requires Ready(c, r, s, model) && CanStart(s.flow, next, updated) && updated !! s.gone
    ensures Ready(c, r, s', model) && s' == s.(flow := DoStart(s.flow, next, updated), history := NewHistory(s, next))
  {
    s' := s.(flow := DoStart(s.flow, next, updated), history := NewHistory(s, next));
    Go(c, r, s, model, Repartition(next, updated), s');
    forall v: WorkerId ensures SessionOf(s'.store.sessions, v) == IDLE && Hand(s', v) == {} {
      assert SessionOf(s.store.sessions, v) == IDLE && Hand(s, v) == {};
    }
  }

  lemma {:induction false} DeploysAll(c: Config, r: States, s: Sys, model: Model, rest: set<WorkerId>)
    returns (s': Sys)
    requires Ready(c, r, s, model) && s.flow.stage == Preparing && rest <= s.flow.updated && rest !! s.flow.deployed
    ensures Ready(c, r, s', model) && Carried(c, s, s')
    ensures s'.flow == s.flow.(deployed := s.flow.deployed + rest)
    decreases rest
  {
    if rest == {} {
      s' := s;
      assert s.flow.deployed + rest == s.flow.deployed;
    } else {
      var w: WorkerId :| w in rest;
      var s1 := DeploysTask(c, r, s, model, w);
      s' := DeploysAll(c, r, s1, model, rest - {w});
      CarriedOn(c, s, s1, s');
      assert s.flow.deployed + {w} + (rest - {w}) == s.flow.deployed + rest;
    }
  }

  lemma {:induction false} NotifiesAll(c: Config, r: States, s: Sys, model: Model, rest: set<WorkerId>)
    returns (s': Sys)
    requires Ready(c, r, s, model) && s.flow.stage == Forwarding
    requires forall w | w in rest :: IsSender(s.flow, w) && PhaseOf(s.flow, w) == Normal
    ensures Ready(c, r, s', model) && Carried(c, s, s')
    ensures s'.flow == s.flow.(phase := s'.flow.phase)
    ensures forall w: WorkerId :: PhaseOf(s'.flow, w) == if w in rest then Notified else PhaseOf(s.flow, w)
    decreases rest
  {
    if rest == {} {
      s' := s;
    } else {
      var w: WorkerId :| w in rest;
      var s1 := Advances(c, r, s, model, Notify(w), s.flow.(phase := s.flow.phase[w := Notified]));
      s' := NotifiesAll(c, r, s1, model, rest - {w});
      CarriedOn(c, s, s1, s');
    }
  }

  /** A peer channel has at most a key map message. */
  ghost predicate OnlyMaps(f: Flow) {
    forall src: WorkerId, dst: WorkerId :: FewMaps(Peer(f, src, dst))
  }

  predicate FewMaps(p: seq<PeerItem>) {
    p == [] || (|p| == 1 && p[0].KeyMaps?)
  }

  lemma SentOnlyMaps(f: Flow, w: WorkerId)
    requires FlowOk(f) && CanSendMaps(f, w) && OnlyMaps(f)
    ensures OnlyMaps(DoSendMaps(f, w))
  {
    assert WorkerOk(f, w);
    forall src: WorkerId, dst: WorkerId ensures FewMaps(Peer(DoSendMaps(f, w), src, dst)) {
      assert PeerOk(f, src, dst) && FewMaps(Peer(f, src, dst));
    }
  }

  lemma {:induction false} SendsAll(c: Config, r: States, s: Sys, model: Model, rest: set<WorkerId>)
    returns (s': Sys)
    requires Ready(c, r, s, model) && OnlyMaps(s.flow) && forall w | w in rest :: PhaseOf(s.flow, w) == Notified
    ensures Ready(c, r, s', model) && Carried(c, s, s') && OnlyMaps(s'.flow)
    ensures var f := s'.flow;
            f == s.flow.(phase := f.phase, sent := s.flow.sent + rest, peer := f.peer, home := f.home)
    decreases rest
  {
    if rest == {} {
      s' := s;
      assert s.flow.sent + rest == s.flow.sent;
    } else {
      var w: WorkerId :| w in rest;
      Knows(c, r, s, model);
      SentOnlyMaps(s.flow, w);
      var s1 := HandsOver(c, r, s, model, w);
      s' := SendsAll(c, r, s1, model, rest - {w});
      CarriedOn(c, s, s1, s');
      assert s.flow.sent + {w} + (rest - {w}) == s.flow.sent + rest;
    }
  }

  lemma {:induction false} ConnectsAll(c: Config, r: States, s: Sys, model: Model, rest: set<(WorkerId, WorkerId)>)
    returns (s': Sys)
    requires Ready(c, r, s, model) && OnlyMaps(s.flow)
    requires forall src: WorkerId, dst: WorkerId | Peer(s.flow, src, dst) != [] :: (src, dst) in rest
    ensures Ready(c, r, s', model) && Carried(c, s, s')
    ensures s'.flow == s.flow.(peer := s'.flow.peer, home := s'.flow.home)
    ensures forall src: WorkerId, dst: WorkerId :: Peer(s'.flow, src, dst) == []
    decreases rest
  {
    if rest == {} {
      s' := s;
    } else {
      var p: (WorkerId, WorkerId) :| p in rest;
      if Peer(s.flow, p.0, p.1) == [] {
        s' := ConnectsAll(c, r, s, model, rest - {p});
      } else {
        assert FewMaps(Peer(s.flow, p.0, p.1));
        var s1 := TakesOver(c, r, s, model, p.0, p.1);
        ConnectedRest(s.flow, p.0, p.1, rest);
        s' := ConnectsAll(c, r, s1, model, rest - {p});
        CarriedOn(c, s, s1, s');
      }
    }
  }

  lemma ConnectedRest(f: Flow, src: WorkerId, dst: WorkerId, rest: set<(WorkerId, WorkerId)>)
    requires OnlyMaps(f) && CanConnect(f, src, dst)
    requires forall x: WorkerId, y: WorkerId | Peer(f, x, y) != [] :: (x, y) in rest
    ensures OnlyMaps(DoConnect(f, src, dst))
    ensures forall x: WorkerId, y: WorkerId | Peer(DoConnect(f, src, dst), x, y) != [] :: (x, y) in rest - {(src, dst)}
  {
    assert FewMaps(Peer(f, src, dst));
    forall x: WorkerId, y: WorkerId
      ensures Peer(DoConnect(f, src, dst), x, y) == if (x, y) == (src, dst) then [] else Peer(f, x, y)
      ensures FewMaps(Peer(DoConnect(f, src, dst), x, y))
    {
      assert FewMaps(Peer(f, x, y));
    }
  }

  /** A channel has at most a barrier. */
  ghost predicate OnlyBarriers(f: Flow) {
    forall u: Upstream, w: WorkerId :: AtMostBarrier(Chan(f, u, w))
  }

  predicate AtMostBarrier(c: seq<Item>) {
    c == [] || c == [Barrier]
  }

  lemma SwitchedChans(f: Flow, u: Upstream, rest: set<Upstream>)
    requires OnlyBarriers(f) && u in rest && forall v: Upstream, w: WorkerId | v in rest :: Chan(f, v, w) == []
    ensures OnlyBarriers(DoSwitch(f, u))
    ensures forall v: Upstream, w: WorkerId | v in rest - {u} :: Chan(DoSwitch(f, u), v, w) == []
  {
    forall v: Upstream, w: WorkerId
      ensures AtMostBarrier(Chan(DoSwitch(f, u), v, w))
      ensures v != u ==> Chan(DoSwitch(f, u), v, w) == Chan(f, v, w)
    {
      assert AtMostBarrier(Chan(f, v, w));
    }
  }

  lemma {:induction false} SwitchesAll(c: Config, r: States, s: Sys, model: Model, rest: set<Upstream>)
    returns (s': Sys)
    requires Ready(c, r, s, model) && s.flow.stage == Switching && OnlyBarriers(s.flow)
    requires rest <= s.flow.ups <= s.flow.route.Keys
    requires forall u | u in rest :: s.flow.route[u] != s.flow.next
    requires forall u | u in s.flow.ups - rest :: s.flow.route[u] == s.flow.next
    requires forall u: Upstream, w: WorkerId | u in rest :: Chan(s.flow, u, w) == []
    ensures Ready(c, r, s', model) && Carried(c, s, s') && OnlyBarriers(s'.flow)
    ensures s'.flow == s.flow.(route := s'.flow.route, chan := s'.flow.chan) && CanStartDrain(s'.flow)
    decreases rest
  {
    if rest == {} {
      s' := s;
    } else {
      var u: Upstream :| u in rest;
      SwitchedChans(s.flow, u, rest);
      var s1 := Advances(c, r, s, model, Switch(u), DoSwitch(s.flow, u));
      s' := SwitchesAll(c, r, s1, model, rest - {u});
      CarriedOn(c, s, s1, s');
    }
  }

  /** Only the channels in rest are not empty. */
  ghost predicate Outstanding(f: Flow, rest: set<(Upstream, WorkerId)>) {
    OnlyBarriers(f) && forall u: Upstream, w: WorkerId | Chan(f, u, w) != [] :: (u, w) in rest
  }

  predicate BarriersTaken(f: Flow, f': Flow) {
    f' == f.(chan := f'.chan, count := f'.count, got := f'.got, phase := f'.phase)
  }

  lemma TakenChans(f: Flow, u: Upstream, w: WorkerId, rest: set<(Upstream, WorkerId)>)
    requires Outstanding(f, rest) && Chan(f, u, w) == [Barrier]
    ensures Outstanding(DoTakeBarrier(f, u, w), rest - {(u, w)})
  {
    forall v: Upstream, x: WorkerId
      ensures Chan(DoTakeBarrier(f, u, w), v, x) == if (v, x) == (u, w) then [] else Chan(f, v, x)
      ensures AtMostBarrier(Chan(DoTakeBarrier(f, u, w), v, x))
    {
      assert AtMostBarrier(Chan(f, v, x));
    }
  }

  lemma TakesOne(c: Config, r: States, s: Sys, model: Model, rest: set<(Upstream, WorkerId)>, u: Upstream, w: WorkerId)
    returns (s': Sys)
    requires Ready(c, r, s, model) && s.flow.stage == Draining && Outstanding(s.flow, rest)
    ensures Ready(c, r, s', model) && Carried(c, s, s') && BarriersTaken(s.flow, s'.flow)
    ensures Outstanding(s'.flow, rest - {(u, w)})
  {
    s' := s;
    if Chan(s.flow, u, w) != [] {
      Knows(c, r, s, model);
      assert WorkerOk(s.flow, w) && AtMostBarrier(Chan(s.flow, u, w));
      s' := Advances(c, r, s, model, TakeBarrier(u, w), DoTakeBarrier(s.flow, u, w));
      TakenChans(s.flow, u, w, rest);
    }
  }

  lemma {:induction false} TakesAll(c: Config, r: States, s: Sys, model: Model, rest: set<(Upstream, WorkerId)>)
    returns (s': Sys)
    requires Ready(c, r, s, model) && s.flow.stage == Draining && Outstanding(s.flow, rest)
    ensures Ready(c, r, s', model) && Carried(c, s, s') && BarriersTaken(s.flow, s'.flow)
    ensures Outstanding(s'.flow, {})
    decreases rest
  {
    if rest == {} {
      s' := s;
    } else {
      var p: (Upstream, WorkerId) :| p in rest;
      var s1 := TakesOne(c, r, s, model, rest, p.0, p.1);
      s' := TakesAll(c, r, s1, model, rest - {p});
      CarriedOn(c, s, s1, s');
    }
  }

  /** With nothing left on any channel the coordinator may finish. */
  lemma DrainedFinishes(f: Flow)
    requires FlowOk(f) && f.stage == Draining
    requires NoItems(f) && NoPeerItems(f)
    ensures CanFinish(f)
  {
    forall w | w in f.active + f.updated ensures Count(f, w) == |f.ups| && PhaseOf(f, w) == Normal {
      assert WorkerOk(f, w);
      forall u | u in f.ups ensures u in Got(f, w) {
        assert ChanOk(f, u, w) && Switched(f, u) && Chan(f, u, w) == [];
      }
      assert Got(f, w) == f.ups;
    }
  }

  // ------------------------------------------------------ a whole reconfiguration

  /** Nothing is on its way between tasks. */
  ghost predicate NoItems(f: Flow) {
    forall u: Upstream, w: WorkerId :: Chan(f, u, w) == []
  }

  ghost predicate NoPeerItems(f: Flow) {
    forall src: WorkerId, dst: WorkerId :: Peer(f, src, dst) == []
  }

  lemma IdlePeers(f: Flow)
    requires FlowOk(f) && (f.stage == Idle || f.stage == Preparing)
    ensures NoPeerItems(f) && forall w: WorkerId :: PhaseOf(f, w) == Normal && w !in f.sent
  {
    forall w: WorkerId ensures PhaseOf(f, w) == Normal && w !in f.sent { assert WorkerOk(f, w); }
    forall src: WorkerId, dst: WorkerId ensures Peer(f, src, dst) == [] { assert PeerOk(f, src, dst); }
  }

  /** New tasks are there and the senders are to be told. */
  lemma Prepares(c: Config, r: States, s: Sys, model: Model, next: Table, updated: set<WorkerId>) returns (s': Sys)
    requires Ready(c, r, s, model) && CanStart(s.flow, next, updated) && updated !! s.gone && NoItems(s.flow)
    ensures Ready(c, r, s', model) && Carried(c, s.(history := NewHistory(s, next)), s') && NoItems(s'.flow)
    ensures var f := s'.flow;
            f == s.flow.(stage := Forwarding, next := next, updated := updated, deployed := f.deployed)
  {
    var s1 := Repartitions(c, r, s, model, next, updated);
    var s2 := DeploysAll(c, r, s1, model, updated - s.flow.deployed);
    s' := Advances(c, r, s2, model, StartForward, s2.flow.(stage := Forwarding));
    CarriedOn(c, s1, s2, s');
    forall u: Upstream, w: WorkerId ensures Chan(s'.flow, u, w) == [] { assert Chan(s.flow, u, w) == []; }
  }

  function Senders(f: Flow): set<WorkerId>
    requires |f.next| == |f.table|
  {
    set b | 0 <= b < |f.table| && f.table[b] != f.next[b] :: f.table[b]
  }

  lemma SendersExact(f: Flow, w: WorkerId)
    requires |f.next| == |f.table|
    ensures w in Senders(f) <==> IsSender(f, w)
  {
  }

  /** All senders have acknowledged. */
  lemma Acknowledges(c: Config, r: States, s: Sys, model: Model) returns (s': Sys)
    requires Ready(c, r, s, model) && s.flow.stage == Forwarding && |s.flow.next| == |s.flow.table|
    requires forall w: WorkerId :: PhaseOf(s.flow, w) == Normal
    ensures Ready(c, r, s', model) && Carried(c, s, s')
    ensures s'.flow == s.flow.(stage := Connecting, phase := s'.flow.phase)
    ensures forall w | w in Senders(s'.flow) :: PhaseOf(s'.flow, w) == Notified
  {
    forall w: WorkerId ensures w in Senders(s.flow) <==> IsSender(s.flow, w) { SendersExact(s.flow, w); }
    var s1 := NotifiesAll(c, r, s, model, Senders(s.flow));
    forall w: WorkerId | IsSender(s1.flow, w) ensures PhaseOf(s1.flow, w) != Normal { SendersExact(s1.flow, w); }
    s' := Advances(c, r, s1, model, WaitConnect, s1.flow.(stage := Connecting));
    CarriedOn(c, s, s1, s');
  }

  /** All key maps are at their new owners. */
  lemma Transfers(c: Config, r: States, s: Sys, model: Model) returns (s': Sys)
    requires Ready(c, r, s, model) && s.flow.stage == Connecting && |s.flow.next| == |s.flow.table|
    requires NoPeerItems(s.flow) && forall w | w in Senders(s.flow) :: PhaseOf(s.flow, w) == Notified
    ensures Ready(c, r, s', model) && Carried(c, s, s') && NoPeerItems(s'.flow)
    ensures var f := s'.flow;
            f == s.flow.(stage := Switching, phase := f.phase, sent := f.sent, peer := f.peer, home := f.home)
  {
    forall src: WorkerId, dst: WorkerId ensures FewMaps(Peer(s.flow, src, dst)) {
      assert Peer(s.flow, src, dst) == [];
    }
    var s1 := SendsAll(c, r, s, model, Senders(s.flow));
    var s2 := ConnectsAll(c, r, s1, model, s1.flow.peer.Keys);
    CarriedOn(c, s, s1, s2);
    forall w: WorkerId | IsSender(s2.flow, w) ensures w in s2.flow.sent { SendersExact(s2.flow, w); }
    forall src: WorkerId, dst: WorkerId ensures !CanConnect(s2.flow, src, dst) {
      assert Peer(s2.flow, src, dst) == [];
    }
    s' := Advances(c, r, s2, model, StartSwitch, s2.flow.(stage := Switching));
    CarriedOn(c, s, s2, s');
    forall src: WorkerId, dst: WorkerId ensures Peer(s'.flow, src, dst) == [] {
      assert Peer(s2.flow, src, dst) == [];
    }
  }

  /** The upstream tasks have switched and every barrier is taken. */
  lemma Drains(c: Config, r: States, s: Sys, model: Model) returns (s': Sys)
    requires Ready(c, r, s, model) && s.flow.stage == Switching && NoItems(s.flow) && s.flow.ups <= s.flow.route.Keys
    requires forall u | u in s.flow.ups :: s.flow.route[u] != s.flow.next
    ensures Ready(c, r, s', model) && Carried(c, s, s') && NoItems(s'.flow)
    ensures var f := s'.flow;
            f == s.flow.(stage := Draining, route := f.route, chan := f.chan, count := f.count, got := f.got,
                         phase := f.phase)
  {
    forall u: Upstream, w: WorkerId ensures AtMostBarrier(Chan(s.flow, u, w)) { assert Chan(s.flow, u, w) == []; }
    var s1 := SwitchesAll(c, r, s, model, s.flow.ups);
    var s2 := Advances(c, r, s1, model, StartDrain, s1.flow.(stage := Draining));
    CarriedOn(c, s, s1, s2);
    forall u: Upstream, w: WorkerId ensures AtMostBarrier(Chan(s2.flow, u, w)) {
      assert AtMostBarrier(Chan(s1.flow, u, w));
    }
    s' := TakesAll(c, r, s2, model, s2.flow.chan.Keys);
    CarriedOn(c, s, s2, s');
    forall u: Upstream, w: WorkerId ensures Chan(s'.flow, u, w) == [] { assert AtMostBarrier(Chan(s'.flow, u, w)); }
  }

  lemma UnswitchedRoutes(f: Flow)
    requires FlowOk(f) && f.stage == Forwarding
    ensures f.ups <= f.route.Keys && |f.next| == |f.table| && forall u | u in f.ups :: f.route[u] != f.next
  {
  }

  lemma PreparedFlow(c: Config, r: States, s: Sys, model: Model, f: Flow)
    requires Ready(c, r, s, model) && s.flow.stage == Forwarding && FlowOk(f) && f.stage == Idle
    requires s.flow ==
               f.(stage := Forwarding, next := s.flow.next, updated := s.flow.updated, deployed := s.flow.deployed)
    ensures NoPeerItems(s.flow) && forall w: WorkerId :: PhaseOf(s.flow, w) == Normal
    ensures s.flow.ups <= s.flow.route.Keys && |s.flow.next| == |s.flow.table|
    ensures forall u | u in s.flow.ups :: s.flow.route[u] != s.flow.next
  {
    Knows(c, r, s, model);
    UnswitchedRoutes(s.flow);
    IdlePeers(f);
    forall w: WorkerId ensures PhaseOf(s.flow, w) == Normal { assert PhaseOf(f, w) == Normal; }
    forall src: WorkerId, dst: WorkerId ensures Peer(s.flow, src, dst) == [] { assert Peer(f, src, dst) == []; }
  }

  /** Every repartition of a system at rest can be carried out. */
  lemma Reconfigures(c: Config, r: States, s: Sys, model: Model, next: Table, updated: set<WorkerId>)
    returns (s': Sys)
    requires Ready(c, r, s, model) && CanStart(s.flow, next, updated) && updated !! s.gone && NoItems(s.flow)
    ensures Ready(c, r, s', model) && Carried(c, s.(history := NewHistory(s, next)), s')
    ensures CanFinish(s'.flow) && NoItems(s'.flow) && s'.flow.table == s.flow.table && s'.flow.next == next
    ensures s'.flow.active == s.flow.active && s'.flow.updated == updated && s'.flow.ups == s.flow.ups
  {
    Knows(c, r, s, model);
    var s1 := Prepares(c, r, s, model, next, updated);
    PreparedFlow(c, r, s1, model, s.flow);
    var s2 := Acknowledges(c, r, s1, model);
    forall src: WorkerId, dst: WorkerId ensures Peer(s2.flow, src, dst) == [] {
      assert Peer(s1.flow, src, dst) == [];
    }
    var s3 := Transfers(c, r, s2, model);
    forall u: Upstream, w: WorkerId ensures Chan(s3.flow, u, w) == [] { assert Chan(s1.flow, u, w) == []; }
    s' := Drains(c, r, s3, model);
    forall src: WorkerId, dst: WorkerId ensures Peer(s'.flow, src, dst) == [] {
      assert Peer(s3.flow, src, dst) == [];
    }
    Knows(c, r, s', model);
    DrainedFinishes(s'.flow);
    var s0 := s.(history := NewHistory(s, next));
    CarriedOn(c, s0, s1, s2);
    CarriedOn(c, s0, s2, s3);
    CarriedOn(c, s0, s3, s');
  }

  /** From every reached state at rest, every repartition that the coordinator
      accepts can be carried out to the point where it may finish, and no worker
      fails on the way. */
  lemma CanReconfigure(c: Config, trace: seq<Sys>, acts: seq<SysAction>, next: Table, updated: set<WorkerId>)
    returns (s': Sys)
    requires IsSysRun(c, trace, acts) && Resting(trace[|acts|]) && NoItems(trace[|acts|].flow)
    requires CanStart(trace[|acts|].flow, next, updated) && updated !! trace[|acts|].gone
    ensures Reached(c, s', ModelAt(acts, |acts|)) && !s'.aborted && CanFinish(s'.flow) && s'.flow.next == next
    ensures Carried(c, trace[|acts|].(history := NewHistory(trace[|acts|], next)), s')
  {
    ReachedClosed(c);
    ReachedSound(c);
    assert RunsTo(c, trace, acts, trace[|acts|], ModelAt(acts, |acts|));
    s' := Reconfigures(c, AllReached(c), trace[|acts|], ModelAt(acts, |acts|), next, updated);
  }
}

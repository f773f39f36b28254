/**
 The coordinator's side of a reconfiguration: the owner history, the migration
 plan with its bucket ranges, and the eventual migration messages.
 */
module Coordinator {
  import opened Types
  import opened StateService
  import opened RecordFlow
  import opened Cluster

  type OwnerChanges = map<WorkerId, map<WorkerId, seq<Bucket>>>

  /** A range of buckets, both ends included. */
  datatype BucketRange = BucketRange(lower: Bucket, upper: Bucket)

  /** Buckets to pull from one source worker. */
  datatype MigrationInfo = MigrationInfo(source: WorkerId, ranges: seq<BucketRange>)

  predicate StrictlyIncreasing(s: seq<Bucket>) {
    forall i, j :: 0 <= i < j < |s| ==> s[i] < s[j]
  }

  predicate Changes(changes: OwnerChanges, src: WorkerId, dst: WorkerId, b: Bucket) {
    src in changes && dst in changes[src] && b in changes[src][dst]
  }

  /** changes lists exactly the buckets that get a new owner. */
  ghost predicate IsDiff(before: Table, next: Table, changes: OwnerChanges) {
    && |before| == |next|
    && (forall src, dst | src in changes && dst in changes[src] ::
          changes[src][dst] != [] && StrictlyIncreasing(changes[src][dst]))
    && (forall src: WorkerId, dst: WorkerId, b: Bucket ::
          Changes(changes, src, dst, b) <==> b < |before| && before[b] == src && next[b] == dst && src != dst)
  }

  // --------------------------------------------------------- bucket ranges

  function Span(lower: Bucket, upper: int): seq<Bucket>
    decreases upper - lower
  {
    if upper < lower then [] else Span(lower, upper - 1) + [upper]
  }

  function Expand(ranges: seq<BucketRange>): seq<Bucket> {
    if ranges == [] then []
    else Expand(ranges[..|ranges| - 1]) + Span(ranges[|ranges| - 1].lower, ranges[|ranges| - 1].upper)
  }

  /** Ranges are not empty and no two of them could be one. */
  predicate Maximal(ranges: seq<BucketRange>) {
    && (forall i | 0 <= i < |ranges| :: ranges[i].lower <= ranges[i].upper)
    && (forall i | 0 < i < |ranges| :: ranges[i - 1].upper + 1 < ranges[i].lower)
  }

  lemma ExpandAppend(ranges: seq<BucketRange>, r: BucketRange)
    ensures Expand(ranges + [r]) == Expand(ranges) + Span(r.lower, r.upper)
  {
    assert (ranges + [r])[..|ranges|] == ranges;
  }

  /** The finished ranges and the one being built give the list so far. */
  ghost predicate Building(ranges: seq<BucketRange>, start: Bucket, end: Bucket, done: seq<Bucket>) {
    && start <= end
    && Expand(ranges) + Span(start, end) == done
    && Maximal(ranges) && (ranges != [] ==> ranges[|ranges| - 1].upper + 1 < start)
  }

  lemma Extends(ranges: seq<BucketRange>, start: Bucket, end: Bucket, done: seq<Bucket>)
    requires Building(ranges, start, end, done)
    ensures Building(ranges, start, end + 1, done + [end + 1])
  {
    assert Span(start, end + 1) == Span(start, end) + [end + 1];
  }

  lemma Closes(ranges: seq<BucketRange>, start: Bucket, end: Bucket, done: seq<Bucket>)
    requires Building(ranges, start, end, done)
    ensures Expand(ranges + [BucketRange(start, end)]) == done && Maximal(ranges + [BucketRange(start, end)])
  {
    ExpandAppend(ranges, BucketRange(start, end));
  }

  lemma Restarts(ranges: seq<BucketRange>, start: Bucket, end: Bucket, done: seq<Bucket>, x: Bucket)
    requires Building(ranges, start, end, done) && end + 1 < x
    ensures Building(ranges + [BucketRange(start, end)], x, x, done + [x])
  {
    Closes(ranges, start, end, done);
    assert Span(x, x) == [x];
  }

  lemma Begins(x: Bucket)
    ensures Building([], x, x, [x])
  {
    assert Span(x, x) == [x];
  }

  /** One more bucket extends the range being built or starts the next one. */
  method NextBucket(ranges: seq<BucketRange>, start: Bucket, end: Bucket, x: Bucket, ghost done: seq<Bucket>)
    returns (ranges': seq<BucketRange>, start': Bucket, end': Bucket)
    requires Building(ranges, start, end, done) && end < x
    ensures Building(ranges', start', end', done + [x]) && end' == x
  {
    if x == end + 1 {
      Extends(ranges, start, end, done);
      ranges', start', end' := ranges, start, x;
    } else {
      Restarts(ranges, start, end, done, x);
      ranges', start', end' := ranges + [BucketRange(start, end)], x, x;
    }
  }

  /** A sorted list of buckets as ranges: nothing is lost, added or reordered,
      and there are as few ranges as possible. */
  method ToRanges(indices: seq<Bucket>) returns (ranges: seq<BucketRange>)
    requires indices != [] && StrictlyIncreasing(indices)
    ensures Expand(ranges) == indices && Maximal(ranges)
  {
    ranges := [];
    var start, end := indices[0], indices[0];
    Begins(indices[0]);
    ghost var done := [indices[0]];
    for i := 1 to |indices|
      invariant end == indices[i - 1] && Building(ranges, start, end, done) && done == indices[..i]
    {
      assert indices[i - 1] < indices[i];
      ranges, start, end := NextBucket(ranges, start, end, indices[i], done);
      assert indices[..i + 1] == indices[..i] + [indices[i]];
      done := done + [indices[i]];
    }
    assert done == indices;
    Closes(ranges, start, end, done);
    ranges := ranges + [BucketRange(start, end)];
  }

  // -------------------------------------------------------- migration plan

  type Plan = map<WorkerId, seq<MigrationInfo>>

  function InfosOf(plan: Plan, dst: WorkerId): seq<MigrationInfo> {
    if dst in plan then plan[dst] else []
  }

  /** Sources that have buckets for dst. */
  function Sources(changes: OwnerChanges, dst: WorkerId): set<WorkerId> {
    set src | src in changes && dst in changes[src]
  }

  /** What destination dst is told once the pairs in `seen` are looked at: each
      source once, with the buckets that move from it to dst. */
  ghost predicate Transposed(changes: OwnerChanges, seen: set<(WorkerId, WorkerId)>, dst: WorkerId,
                             infos: seq<MigrationInfo>) {
    && (forall i, j :: 0 <= i < j < |infos| ==> infos[i].source != infos[j].source)
    && (forall i | 0 <= i < |infos| :: InfoOk(changes, seen, dst, infos[i]))
    && (forall src | (src, dst) in seen :: exists i :: 0 <= i < |infos| && infos[i].source == src)
  }

  ghost predicate InfoOk(changes: OwnerChanges, seen: set<(WorkerId, WorkerId)>, dst: WorkerId, info: MigrationInfo) {
    && (info.source, dst) in seen && info.source in changes && dst in changes[info.source]
    && Expand(info.ranges) == changes[info.source][dst] && Maximal(info.ranges)
  }

  /** All pairs of a source and a destination. */
  function Pairs(changes: OwnerChanges): set<(WorkerId, WorkerId)> {
    set src, dst | src in changes && dst in changes[src] :: (src, dst)
  }

  lemma TransposedNext(changes: OwnerChanges, seen: set<(WorkerId, WorkerId)>, src: WorkerId, dst: WorkerId,
                       d: WorkerId,
                       infos: seq<MigrationInfo>, info: MigrationInfo)
    requires Transposed(changes, seen, d, infos) && (src, dst) !in seen
    requires InfoOk(changes, seen + {(src, dst)}, dst, info) && info.source == src
    ensures Transposed(changes, seen + {(src, dst)}, d, if d == dst then infos + [info] else infos)
  {
    var seen', infos' := seen + {(src, dst)}, if d == dst then infos + [info] else infos;
    forall i | 0 <= i < |infos'| ensures InfoOk(changes, seen', d, infos'[i]) {
      if i < |infos| { assert InfoOk(changes, seen, d, infos[i]); }
    }
    forall x | (x, d) in seen' ensures exists i :: 0 <= i < |infos'| && infos'[i].source == x {
      if (x, d) in seen {
        var i :| 0 <= i < |infos| && infos[i].source == x;
        assert infos'[i].source == x;
      } else {
        assert infos'[|infos|].source == x;
      }
    }
  }

  /** The plan groups by destination what the changes group by source. */
  method GenerateMigrationPlan(changes: OwnerChanges) returns (plan: Plan)
    requires forall src, dst | src in changes && dst in changes[src] ::
            changes[src][dst] != [] && StrictlyIncreasing(changes[src][dst])
    ensures forall dst: WorkerId :: Transposed(changes, Pairs(changes), dst, InfosOf(plan, dst))
    ensures forall dst | dst in plan :: plan[dst] != []
  {
    plan := map[];
    ghost var seen: set<(WorkerId, WorkerId)> := {};
    var sources := changes.Keys;
    while sources != {}
      invariant sources <= changes.Keys
      invariant forall p :: p in seen <==> p in Pairs(changes) && p.0 !in sources
      invariant forall dst: WorkerId :: Transposed(changes, seen, dst, InfosOf(plan, dst))
      invariant forall dst | dst in plan :: plan[dst] != []
      decreases sources
    {
      var src: WorkerId :| src in sources;
      var dests := changes[src].Keys;
      ghost var before := seen;
      while dests != {}
        invariant dests <= changes[src].Keys
        invariant forall p :: p in seen <==> p in before || (p.0 == src && p.1 in changes[src] && p.1 !in dests)
        invariant forall dst: WorkerId :: Transposed(changes, seen, dst, InfosOf(plan, dst))
        invariant forall dst | dst in plan :: plan[dst] != []
        decreases dests
      {
        var dst: WorkerId :| dst in dests;
        var ranges := ToRanges(changes[src][dst]);
        var info := MigrationInfo(src, ranges);
        var plan' := plan[dst := InfosOf(plan, dst) + [info]];
        forall d: WorkerId ensures Transposed(changes, seen + {(src, dst)}, d, InfosOf(plan', d)) {
          TransposedNext(changes, seen, src, dst, d, InfosOf(plan, d), info);
        }
        plan, seen, dests := plan', seen + {(src, dst)}, dests - {dst};
      }
      sources := sources - {src};
    }
    assert seen == Pairs(changes);
  }

  /** The peer connections that the senders open to dst: each sender that has dst
      among its peers opens one for every upstream operator. */
  function Connections(changes: OwnerChanges, dst: WorkerId, operators: set<string>): set<(WorkerId, string)> {
    set src: WorkerId, op | src in Sources(changes, dst) && op in operators :: (src, op)
  }

  lemma {:induction false} ProductSize(sources: set<WorkerId>, operators: set<string>)
    ensures |set src: WorkerId, op | src in sources && op in operators :: (src, op)| == |sources| * |operators|
  {
    if sources == {} {
      assert (set src: WorkerId, op | src in sources && op in operators :: (src, op)) == {};
    } else {
      var x: WorkerId :| x in sources;
      var rest := set src: WorkerId, op | src in sources - {x} && op in operators :: (src, op);
      var ofX := set op | op in operators :: (x, op);
      ProductSize(sources - {x}, operators);
      RowSize(x, operators);
      assert (set src: WorkerId, op | src in sources && op in operators :: (src, op)) == rest + ofX;
      assert |sources| * |operators| == (|sources| - 1) * |operators| + |operators|;
    }
  }

  lemma {:induction false} RowSize(x: WorkerId, operators: set<string>)
    ensures |set op | op in operators :: (x, op)| == |operators|
  {
    if operators == {} {
      assert (set op | op in operators :: (x, op)) == {};
    } else {
      var y: string :| y in operators;
      RowSize(x, operators - {y});
      assert (set op | op in operators :: (x, op)) == (set op | op in operators - {y} :: (x, op)) + {(x, y)};
    }
  }

  /** The inbound peers a receiver is told to expect are the connections that the
      senders open to it. */
  lemma InboundPeers(changes: OwnerChanges, dst: WorkerId, infos: seq<MigrationInfo>, operators: set<string>)
    requires Transposed(changes, Pairs(changes), dst, infos)
    ensures |infos| * |operators| == |Connections(changes, dst, operators)|
    ensures forall src: WorkerId :: src in Sources(changes, dst) <==> HasSource(infos, src)
  {
    InboundSenders(changes, dst, infos);
    ProductSize(Sources(changes, dst), operators);
  }

  lemma InboundSenders(changes: OwnerChanges, dst: WorkerId, infos: seq<MigrationInfo>)
    requires Transposed(changes, Pairs(changes), dst, infos)
    ensures |infos| == |Sources(changes, dst)|
    ensures forall src: WorkerId :: src in Sources(changes, dst) <==> HasSource(infos, src)
  {
    var sources := seq(|infos|, i requires 0 <= i < |infos| => infos[i].source);
    forall src: WorkerId
      ensures src in Sources(changes, dst) <==> src in sources
      ensures src in Sources(changes, dst) <==> HasSource(infos, src)
    { IsSource(changes, dst, infos, sources, src); }
    SameSize(sources, Sources(changes, dst));
  }

  lemma SameSize(list: seq<WorkerId>, s: set<WorkerId>)
    requires Distinct(list) && forall x: WorkerId :: x in s <==> x in list
    ensures |list| == |s|
  {
    DistinctSize(list);
    assert Elements(list) == s;
  }

  lemma IsSource(changes: OwnerChanges, dst: WorkerId, infos: seq<MigrationInfo>, sources: seq<WorkerId>, src: WorkerId)
    requires Transposed(changes, Pairs(changes), dst, infos)
    requires |sources| == |infos| && forall i | 0 <= i < |infos| :: sources[i] == infos[i].source
    ensures src in Sources(changes, dst) <==> src in sources
    ensures src in Sources(changes, dst) <==> HasSource(infos, src)
  {
    if src in Sources(changes, dst) {
      assert (src, dst) in Pairs(changes);
      var i :| 0 <= i < |infos| && infos[i].source == src;
      assert sources[i] == src && HasSource(infos, src);
    }
    if src in sources {
      var i :| 0 <= i < |sources| && sources[i] == src;
      assert InfoOk(changes, Pairs(changes), dst, infos[i]);
    }
    if i :| 0 <= i < |infos| && infos[i].source == src { assert sources[i] == src; }
  }

  ghost predicate HasSource(infos: seq<MigrationInfo>, src: WorkerId) {
    exists i :: 0 <= i < |infos| && infos[i].source == src
  }

  predicate PullsFrom(info: MigrationInfo, src: WorkerId, b: Bucket) {
    info.source == src && b in Expand(info.ranges)
  }

  /** Expanding the plan gives back precisely the owner changes: bucket b is in an
      entry of dst from src exactly if it moves from src to dst, and then in no
      other entry of any destination. */
  lemma PlanIsExact(before: Table, next: Table, changes: OwnerChanges, plan: Plan, src: WorkerId, dst: WorkerId,
                    b: Bucket)
    requires IsDiff(before, next, changes)
    requires forall d: WorkerId :: Transposed(changes, Pairs(changes), d, InfosOf(plan, d))
    ensures (exists i :: 0 <= i < |InfosOf(plan, dst)| && PullsFrom(InfosOf(plan, dst)[i], src, b))
            <==> b < |before| && before[b] == src && next[b] == dst && src != dst
  {
    var infos := InfosOf(plan, dst);
    assert Transposed(changes, Pairs(changes), dst, infos);
    if i :| 0 <= i < |infos| && PullsFrom(infos[i], src, b) {
      assert InfoOk(changes, Pairs(changes), dst, infos[i]);
      assert Changes(changes, src, dst, b);
    }
    if b < |before| && before[b] == src && next[b] == dst && src != dst {
      assert Changes(changes, src, dst, b);
      assert (src, dst) in Pairs(changes);
      var i :| 0 <= i < |infos| && infos[i].source == src;
      assert InfoOk(changes, Pairs(changes), dst, infos[i]);
      assert PullsFrom(infos[i], src, b);
    }
  }

  // ------------------------------------------- owner history and messages

  type Messages = map<WorkerId, seq<AffectedBucket>>

  function InfosFor(messages: Messages, w: WorkerId): seq<AffectedBucket> {
    if w in messages then messages[w] else []
  }

  /** The message names x for bucket b. */
  ghost predicate Names(infos: seq<AffectedBucket>, x: WorkerId, b: Bucket) {
    exists i :: 0 <= i < |infos| && infos[i].bucket == b && x in infos[i].workers
  }

  lemma NamesNext(infos: seq<AffectedBucket>, info: AffectedBucket, x: WorkerId, b: Bucket)
    ensures Names(infos + [info], x, b) <==> Names(infos, x, b) || (info.bucket == b && x in info.workers)
  {
    var infos' := infos + [info];
    if i :| 0 <= i < |infos| && infos[i].bucket == b && x in infos[i].workers {
      assert infos'[i] == infos[i];
    }
    if info.bucket == b && x in info.workers {
      assert infos'[|infos|] == info;
    }
  }

  class Coordinator {
    var partition: Table
    var history: seq<set<WorkerId>>      // per bucket, the workers that ever owned it

    /** InitKeyPartitions. */
    constructor (table: Table)
      ensures partition == table && |history| == |table|
      ensures forall b | 0 <= b < |table| :: history[b] == {table[b]}
    {
      partition := table;
      history := seq(|table|, b requires 0 <= b < |table| => {table[b]});
    }

    /** updateKeyPartition: every new owner enters the history of its buckets. */
    method UpdateKeyPartition(next: Table, changes: OwnerChanges)
      requires IsDiff(partition, next, changes) && |history| == |partition|
      modifies this
      ensures partition == next && |history| == |next|
      ensures forall b | 0 <= b < |next| ::
                history[b] == old(history[b]) + if next[b] != old(partition)[b] then {next[b]} else {}
    {
      var sources := changes.Keys;
      while sources != {}
        invariant sources <= changes.Keys && |history| == |next| && partition == old(partition)
        invariant forall b: Bucket | b < |next| :: Between(old(history)[b], history[b], next[b], partition[b])
        invariant forall src: WorkerId, dst: WorkerId, b: Bucket | src !in sources && Changes(changes, src, dst, b) ::
                dst in history[b]
        decreases sources
      {
        var src: WorkerId :| src in sources;
        var dests := changes[src].Keys;
        while dests != {}
          invariant dests <= changes[src].Keys && |history| == |next| && partition == old(partition)
          invariant forall b: Bucket | b < |next| :: Between(old(history)[b], history[b], next[b], partition[b])
          invariant forall x: WorkerId, dst: WorkerId, b: Bucket | x !in sources && Changes(changes, x, dst, b) ::
                  dst in history[b]
          invariant forall dst: WorkerId, b: Bucket | dst !in dests && Changes(changes, src, dst, b) ::
                  dst in history[b]
          decreases dests
        {
          var dst: WorkerId :| dst in dests;
          ghost var was := history;
          RecordOwner(changes[src][dst], dst, next, changes, src);
          forall b: Bucket | b < |next| ensures Between(old(history)[b], history[b], next[b], partition[b]) {
            assert Between(old(history)[b], was[b], next[b], partition[b]);
            assert b in changes[src][dst] <==> Changes(changes, src, dst, b);
          }
          dests := dests - {dst};
        }
        sources := sources - {src};
      }
      forall b: Bucket | b < |next|
        ensures history[b] == old(history)[b] + if next[b] != old(partition)[b] then {next[b]} else {}
      {
        assert Between(old(history)[b], history[b], next[b], partition[b]);
        assert next[b] != partition[b] ==> Changes(changes, partition[b], next[b], b);
      }
      partition := next;
    }

    method RecordOwner(buckets: seq<Bucket>, dst: WorkerId, ghost next: Table, ghost changes: OwnerChanges,
                       ghost src: WorkerId)
      requires IsDiff(partition, next, changes) && |history| == |next|
      requires src in changes && dst in changes[src] && changes[src][dst] == buckets
      modifies this`history
      ensures |history| == |next|
      ensures forall b: Bucket | b < |next| :: history[b] == old(history)[b] + if b in buckets then {dst} else {}
    {
      for i := 0 to |buckets|
        invariant |history| == |next|
        invariant forall b: Bucket | b < |next| ::
                history[b] == old(history)[b] + if b in buckets[..i] then {dst} else {}
      {
        assert Changes(changes, src, dst, buckets[i]);
        assert buckets[..i + 1] == buckets[..i] + [buckets[i]];
        history := history[buckets[i] := history[buckets[i]] + {dst}];
      }
      assert buckets[..|buckets|] == buckets;
    }

    /** The cancelling workers among the owners of one bucket, in some order. */
    method CancellingOwners(owners: set<WorkerId>, cancelling: set<WorkerId>) returns (workers: seq<WorkerId>)
      ensures Distinct(workers) && forall x :: x in workers <==> x in owners && x in cancelling
    {
      workers := [];
      var rest := owners;
      while rest != {}
        invariant rest <= owners && Distinct(workers)
        invariant forall x :: x in workers <==> x in owners && x in cancelling && x !in rest
        decreases rest
      {
        var x :| x in rest;
        rest := rest - {x};
        if x in cancelling {
          workers := workers + [x];
        }
      }
    }

    /** The messages of notifyEventualStateMigration: each bucket that a removed
        worker ever owned goes to its current owner, with those workers. */
    method EventualMessages(cancelling: set<WorkerId>) returns (messages: Messages)
      requires |history| == |partition|
      ensures forall w: WorkerId, x: WorkerId, b: Bucket ::
                Told(InfosFor(messages, w), partition, history, cancelling, |partition|, w, x, b)
      ensures forall w | w in messages :: exists x: WorkerId, b: Bucket :: Names(messages[w], x, b)
      ensures forall w | w in messages :: Tidy(messages[w])
    {
      messages := map[];
      for b := 0 to |history|
        invariant forall w: WorkerId, x: WorkerId, d: Bucket ::
                    Told(InfosFor(messages, w), partition, history, cancelling, b, w, x, d)
        invariant forall w | w in messages :: exists x: WorkerId, d: Bucket :: Names(messages[w], x, d)
        invariant forall w | w in messages :: Tidy(messages[w]) && Below(messages[w], b)
      {
        var workers := CancellingOwners(history[b], cancelling);
        ghost var before := messages;
        if |workers| != 0 {
          var info := AffectedBucket(b, workers);
          messages := messages[partition[b] := InfosFor(messages, partition[b]) + [info]];
          NamesNext(InfosFor(before, partition[b]), info, workers[0], b);
          assert Names(messages[partition[b]], workers[0], b);
        }
        ghost var next := b + 1;
        forall w: WorkerId, x: WorkerId, d: Bucket
          ensures Told(InfosFor(messages, w), partition, history, cancelling, next, w, x, d)
        {
          assert Told(InfosFor(before, w), partition, history, cancelling, b, w, x, d);
          NamesNext(InfosFor(before, partition[b]), AffectedBucket(b, workers), x, d);
        }
      }
    }
  }

  ghost predicate Below(infos: seq<AffectedBucket>, n: nat) {
    forall i | 0 <= i < |infos| :: infos[i].bucket < n
  }

  /** The message to w names x for bucket b, among the first n, exactly if w owns
      b and x is cancelling and once owned it. */
  ghost predicate Told(infos: seq<AffectedBucket>, partition: Table, history: seq<set<WorkerId>>,
                       cancelling: set<WorkerId>,
                       n: nat, w: WorkerId, x: WorkerId, b: Bucket)
    requires n <= |partition| == |history|
  {
    Names(infos, x, b) <==> b < n && partition[b] == w && x in cancelling && x in history[b]
  }

  ghost predicate Between(was: set<WorkerId>, now: set<WorkerId>, next: WorkerId, before: WorkerId) {
    was <= now <= was + if next != before then {next} else {}
  }

  /** What a worker makes of the coordinator's message is exactly the set of
      affected buckets of the whole system. */
  lemma MessageFromHistory(s: Sys, history: seq<set<WorkerId>>, w: WorkerId, infos: seq<AffectedBucket>,
                           affected: map<WorkerId, seq<Bucket>>)
    requires Grouping(infos, affected)
    requires |history| == |s.flow.next| && forall b: Bucket | b < |history| :: history[b] == History(s, b)
    requires forall x: WorkerId, b: Bucket :: Told(infos, s.flow.next, history, Removed(s.flow), |history|, w, x, b)
    ensures IsMessage(s, w, affected)
  {
    forall x: WorkerId, b: Bucket ensures Affects(s, w, x, b) <==> x in affected && b in affected[x] {
      BucketsForIff(infos, x, b);
      assert Under(affected, x) == BucketsFor(infos, x);
      assert Told(infos, s.flow.next, history, Removed(s.flow), |history|, w, x, b);
    }
  }

  /** A message that names a worker for a bucket is not empty. */
  lemma MessageNotEmpty(infos: seq<AffectedBucket>, affected: map<WorkerId, seq<Bucket>>, x: WorkerId, b: Bucket)
    requires Grouping(infos, affected) && Names(infos, x, b)
    ensures infos != [] && affected != map[]
  {
    BucketsForIff(infos, x, b);
    assert Under(affected, x) == BucketsFor(infos, x);
  }

  /** The coordinator sends a message to exactly the workers with an affected
      bucket, and what such a worker makes of it is its part of the migration. */
  lemma MessagesSent(s: Sys, history: seq<set<WorkerId>>, messages: Messages, w: WorkerId,
                     affected: map<WorkerId, seq<Bucket>>)
    requires |history| == |s.flow.next| && forall b: Bucket | b < |history| :: history[b] == History(s, b)
    requires forall x: WorkerId, b: Bucket ::
               Told(InfosFor(messages, w), s.flow.next, history, Removed(s.flow), |history|, w, x, b)
    requires w in messages ==> exists x: WorkerId, b: Bucket :: Names(messages[w], x, b)
    requires Grouping(InfosFor(messages, w), affected)
    ensures w in messages <==> exists x: WorkerId, b: Bucket :: Affects(s, w, x, b)
    ensures w in messages ==> IsMessage(s, w, affected) && affected != map[]
  {
    var infos := InfosFor(messages, w);
    MessageFromHistory(s, history, w, infos, affected);
    forall x: WorkerId, b: Bucket ensures Names(infos, x, b) <==> Affects(s, w, x, b) {
      assert Told(infos, s.flow.next, history, Removed(s.flow), |history|, w, x, b);
    }
    if w in messages {
      var x: WorkerId, b: Bucket :| Names(messages[w], x, b);
      assert Affects(s, w, x, b);
      MessageNotEmpty(infos, affected, x, b);
    }
    if x: WorkerId, b: Bucket :| Affects(s, w, x, b) {
      assert Names(infos, x, b);
    }
  }
}

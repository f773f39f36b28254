/**
 Scattering a multi-state request to the workers that store its keys, and
 gathering the answers in the order of the request.
 */
module ScatterGather {
  import opened Types

  type StateId = uint16
  type Request = map<StateId, seq<Key>>
  type ByWorker<T> = map<WorkerId, map<StateId, seq<T>>>

  /** The list kept for a worker and a state; empty when there is none. */
  function Row<T>(m: ByWorker<T>, w: WorkerId, st: StateId): seq<T> {
    if w in m && st in m[w] then m[w][st] else []
  }

  function Appended<T>(m: ByWorker<T>, w: WorkerId, st: StateId, x: T): ByWorker<T> {
    var row: map<StateId, seq<T>> := (if w in m then m[w] else map[])[st := Row(m, w, st) + [x]];
    m[w := row]
  }

  lemma AppendedRow<T>(m: ByWorker<T>, w: WorkerId, st: StateId, x: T, v: WorkerId, t: StateId)
    ensures Row(Appended(m, w, st, x), v, t) == if v == w && t == st then Row(m, v, t) + [x] else Row(m, v, t)
  {
  }

  /** The indices of the keys that worker w stores, in order. */
  function Slots(keys: seq<Key>, buckets: seq<Bucket>, loc: (Key, Bucket) -> WorkerId, w: WorkerId): seq<nat>
    requires |keys| <= |buckets|
  {
    if keys == [] then []
    else
      var n := |keys| - 1;
      Slots(keys[..n], buckets, loc, w) + if loc(keys[n], buckets[n]) == w then [n] else []
  }

  /** The trackers of all workers partition the index range: index i is tracked
      for w exactly if w stores key i, and no tracker repeats an index. */
  lemma {:induction false} SlotsPartition(keys: seq<Key>, buckets: seq<Bucket>, loc: (Key, Bucket) -> WorkerId,
                                          w: WorkerId)
    requires |keys| <= |buckets|
    ensures forall i: nat :: i in Slots(keys, buckets, loc, w) <==> i < |keys| && loc(keys[i], buckets[i]) == w
    ensures forall i, j :: 0 <= i < j < |Slots(keys, buckets, loc, w)| ==>
            Slots(keys, buckets, loc, w)[i] < Slots(keys, buckets, loc, w)[j]
  {
    if keys != [] {
      var n := |keys| - 1;
      SlotsPartition(keys[..n], buckets, loc, w);
      var init := Slots(keys[..n], buckets, loc, w);
      assert forall i: nat | i in init :: i < n;
      assert forall i | 0 <= i < |init| :: init[i] in init;
    }
  }

  // -------------------------------------------------------------- scatter

  /** State st of the request, grouped up to its first n keys. */
  ghost predicate GroupedTo(before: ByWorker<nat>, trackers: ByWorker<nat>, st: StateId, keys: seq<Key>,
                            buckets: seq<Bucket>,
                            loc: (Key, Bucket) -> WorkerId, n: nat, w: WorkerId, t: StateId)
    requires n <= |keys| <= |buckets|
  {
    Row(trackers, w, t) == if t == st then Slots(keys[..n], buckets, loc, w) else Row(before, w, t)
  }

  lemma GroupedNext(before: ByWorker<nat>, trackers: ByWorker<nat>, st: StateId, keys: seq<Key>, buckets: seq<Bucket>,
                    loc: (Key, Bucket) -> WorkerId, n: nat, w: WorkerId, t: StateId)
    requires n < |keys| <= |buckets| && GroupedTo(before, trackers, st, keys, buckets, loc, n, w, t)
    ensures GroupedTo(before, Appended(trackers, loc(keys[n], buckets[n]), st, n), st, keys, buckets, loc, n + 1, w, t)
  {
    AppendedRow(trackers, loc(keys[n], buckets[n]), st, n, w, t);
    assert keys[..n + 1][..n] == keys[..n];
  }

  /** The keys of a group are the keys at its tracked indices. */
  ghost predicate Matches(keys: Request, byWorker: ByWorker<Key>, trackers: ByWorker<nat>, w: WorkerId, t: StateId) {
    var r := Row(trackers, w, t);
    && |Row(byWorker, w, t)| == |r|
    && (r != [] ==> t in keys)
    && forall j | 0 <= j < |r| :: r[j] < |keys[t]| && Row(byWorker, w, t)[j] == keys[t][r[j]]
  }

  lemma MatchesNext(keys: Request, byWorker: ByWorker<Key>, trackers: ByWorker<nat>, v: WorkerId, st: StateId, i: nat,
                    w: WorkerId, t: StateId)
    requires Matches(keys, byWorker, trackers, w, t) && st in keys && i < |keys[st]|
    ensures Matches(keys, Appended(byWorker, v, st, keys[st][i]), Appended(trackers, v, st, i), w, t)
  {
    AppendedRow(byWorker, v, st, keys[st][i], w, t);
    AppendedRow(trackers, v, st, i, w, t);
  }

  method GroupState(keys: Request, st: StateId, buckets: seq<Bucket>, loc: (Key, Bucket) -> WorkerId,
                    byWorker0: ByWorker<Key>, trackers0: ByWorker<nat>)
    returns (byWorker: ByWorker<Key>, trackers: ByWorker<nat>)
    requires st in keys && |keys[st]| <= |buckets|
    requires forall w: WorkerId :: Row(trackers0, w, st) == []
    requires forall w: WorkerId, t: StateId :: Matches(keys, byWorker0, trackers0, w, t)
    ensures forall w: WorkerId, t: StateId ::
            GroupedTo(trackers0, trackers, st, keys[st], buckets, loc, |keys[st]|, w, t)
    ensures forall w: WorkerId, t: StateId :: Matches(keys, byWorker, trackers, w, t)
  {
    byWorker, trackers := byWorker0, trackers0;
    for i := 0 to |keys[st]|
      invariant forall w: WorkerId, t: StateId :: GroupedTo(trackers0, trackers, st, keys[st], buckets, loc, i, w, t)
      invariant forall w: WorkerId, t: StateId :: Matches(keys, byWorker, trackers, w, t)
    {
      var v := loc(keys[st][i], buckets[i]);
      ghost var n := i + 1;
      var byWorker', trackers' := Appended(byWorker, v, st, keys[st][i]), Appended(trackers, v, st, i);
      forall w: WorkerId, t: StateId ensures GroupedTo(trackers0, trackers', st, keys[st], buckets, loc, n, w, t) {
        GroupedNext(trackers0, trackers, st, keys[st], buckets, loc, i, w, t);
      }
      forall w: WorkerId, t: StateId ensures Matches(keys, byWorker', trackers', w, t) {
        MatchesNext(keys, byWorker, trackers, v, st, i, w, t);
      }
      byWorker, trackers := byWorker', trackers';
    }
  }

  ghost predicate Tracked(keys: Request, buckets: seq<Bucket>, loc: (Key, Bucket) -> WorkerId, trackers: ByWorker<nat>,
                          w: WorkerId, t: StateId)
    requires t in keys ==> |keys[t]| <= |buckets|
  {
    Row(trackers, w, t) == if t in keys then Slots(keys[t], buckets, loc, w) else []
  }

  /** groupKeysByWorker: each worker gets, for each state, the keys it stores, and
      the tracker remembers where they came from. */
  method GroupKeysByWorker(keys: Request, buckets: seq<Bucket>, loc: (Key, Bucket) -> WorkerId)
    returns (byWorker: ByWorker<Key>, trackers: ByWorker<nat>)
    requires forall st | st in keys :: |keys[st]| <= |buckets|
    ensures forall w: WorkerId, t: StateId :: Tracked(keys, buckets, loc, trackers, w, t)
    ensures forall w: WorkerId, t: StateId :: Matches(keys, byWorker, trackers, w, t)
  {
    byWorker, trackers := map[], map[];
    var rest := keys.Keys;
    while rest != {}
      invariant rest <= keys.Keys
      invariant forall w: WorkerId, t: StateId | t !in rest :: Tracked(keys, buckets, loc, trackers, w, t)
      invariant forall w: WorkerId, t: StateId | t in rest :: Row(trackers, w, t) == []
      invariant forall w: WorkerId, t: StateId :: Matches(keys, byWorker, trackers, w, t)
      decreases rest
    {
      var st: StateId :| st in rest;
      ghost var before := trackers;
      byWorker, trackers := GroupState(keys, st, buckets, loc, byWorker, trackers);
      assert keys[st][..|keys[st]|] == keys[st];
      forall w: WorkerId, t: StateId
        ensures Row(trackers, w, t) == if t == st then Slots(keys[st], buckets, loc, w) else Row(before, w, t)
      {
        assert GroupedTo(before, trackers, st, keys[st], buckets, loc, |keys[st]|, w, t);
      }
      forall w: WorkerId, t: StateId | t !in rest - {st} ensures Tracked(keys, buckets, loc, trackers, w, t) {
        assert t != st ==> Tracked(keys, buckets, loc, before, w, t);
      }
      rest := rest - {st};
    }
  }

  // --------------------------------------------------------------- gather

  predicate Increasing(s: seq<nat>) {
    forall i, j :: 0 <= i < j < |s| ==> s[i] < s[j]
  }

  /** Writes value j at index j of the tracker, and nothing else. */
  method Fill(row: seq<Value>, indices: seq<nat>, values: seq<Value>) returns (filled: seq<Value>)
    requires |indices| == |values| && Increasing(indices) && forall i | i in indices :: i < |row|
    ensures |filled| == |row|
    ensures forall j | 0 <= j < |values| :: indices[j] < |filled| && filled[indices[j]] == values[j]
    ensures forall i: nat | i < |row| && i !in indices :: filled[i] == row[i]
  {
    filled := row;
    for j := 0 to |values|
      invariant |filled| == |row|
      invariant forall n | 0 <= n < j :: indices[n] < |filled| && filled[indices[n]] == values[n]
      invariant forall i: nat | i < |row| && i !in indices :: filled[i] == row[i]
    {
      assert indices[j] in indices;
      filled := filled[indices[j] := values[j]];
    }
  }

  type Answers = map<StateId, seq<Value>>

  /** The answers of worker w for state t are at their places. */
  ghost predicate Placed(res: Answers, results: ByWorker<Value>, trackers: ByWorker<nat>, w: WorkerId, t: StateId) {
    var r, v := Row(trackers, w, t), Row(results, w, t);
    v != [] ==>
      && t in res && |r| == |v|
      && forall j | 0 <= j < |v| :: r[j] < |res[t]| && res[t][r[j]] == v[j]
  }

  /** Every worker answered each of its keys, and nothing else. */
  ghost predicate Answered(keys: Request, results: ByWorker<Value>, trackers: ByWorker<nat>) {
    && (forall w: WorkerId, t: StateId :: |Row(results, w, t)| == |Row(trackers, w, t)|)
    && (forall w, t | w in results && t in results[w] :: t in keys)
  }

  ghost predicate SameShape(keys: Request, res: Answers) {
    res.Keys == keys.Keys && forall st | st in keys :: |res[st]| == |keys[st]|
  }

  /** What one worker writes is not touched by another. */
  lemma Undisturbed(keys: Request, buckets: seq<Bucket>, loc: (Key, Bucket) -> WorkerId, trackers: ByWorker<nat>,
                    results: ByWorker<Value>, res: Answers, res': Answers, v: WorkerId, st: StateId, w: WorkerId,
                    t: StateId)
    requires forall st | st in keys :: |keys[st]| <= |buckets|
    requires Tracked(keys, buckets, loc, trackers, v, st) && Tracked(keys, buckets, loc, trackers, w, t)
    requires Placed(res, results, trackers, w, t) && (w != v || t != st) && st in keys
    requires st in res && st in res' && |res'[st]| == |res[st]| && res' == res[st := res'[st]]
    requires forall i: nat | i < |res[st]| && i !in Row(trackers, v, st) :: res'[st][i] == res[st][i]
    ensures Placed(res', results, trackers, w, t)
  {
    if Row(results, w, t) != [] && t == st {
      SlotsPartition(keys[st], buckets, loc, v);
      SlotsPartition(keys[st], buckets, loc, w);
      var r := Row(trackers, w, st);
      forall j | 0 <= j < |r| ensures res'[st][r[j]] == res[st][r[j]] {
        assert r[j] in Slots(keys[st], buckets, loc, w);
        assert r[j] !in Slots(keys[st], buckets, loc, v);
      }
    }
  }

  method MergeWorker(keys: Request, results: ByWorker<Value>, trackers: ByWorker<nat>, v: WorkerId, res0: Answers,
                     ghost buckets: seq<Bucket>, ghost loc: (Key, Bucket) -> WorkerId,
                     ghost done: set<WorkerId>) returns (res: Answers)
    requires forall st | st in keys :: |keys[st]| <= |buckets|
    requires forall w: WorkerId, t: StateId :: Tracked(keys, buckets, loc, trackers, w, t)
    requires Answered(keys, results, trackers) && SameShape(keys, res0) && v in results && v !in done
    requires forall w: WorkerId, t: StateId | w in done :: Placed(res0, results, trackers, w, t)
    ensures SameShape(keys, res)
    ensures forall w: WorkerId, t: StateId | w in done + {v} :: Placed(res, results, trackers, w, t)
  {
    res := res0;
    var rest := results[v].Keys;
    while rest != {}
      invariant rest <= results[v].Keys && SameShape(keys, res)
      invariant forall w: WorkerId, t: StateId | w in done :: Placed(res, results, trackers, w, t)
      invariant forall t: StateId | t !in rest :: Placed(res, results, trackers, v, t)
      decreases rest
    {
      var st: StateId :| st in rest;
      var indices := if v in trackers && st in trackers[v] then trackers[v][st] else [];
      assert Tracked(keys, buckets, loc, trackers, v, st) && |Row(results, v, st)| == |Row(trackers, v, st)|;
      SlotsPartition(keys[st], buckets, loc, v);
      var row := Fill(res[st], indices, results[v][st]);
      var res' := res[st := row];
      forall w: WorkerId, t: StateId | w in done ensures Placed(res', results, trackers, w, t) {
        Undisturbed(keys, buckets, loc, trackers, results, res, res', v, st, w, t);
      }
      forall t: StateId | t !in rest - {st} ensures Placed(res', results, trackers, v, t) {
        if t != st { Undisturbed(keys, buckets, loc, trackers, results, res, res', v, st, v, t); }
      }
      res, rest := res', rest - {st};
    }
  }

  /** mergeResultsFromAllWorkersLazyByKey. */
  method MergeResults(keys: Request, results: ByWorker<Value>, trackers: ByWorker<nat>,
                      ghost buckets: seq<Bucket>, ghost loc: (Key, Bucket) -> WorkerId) returns (res: Answers)
    requires forall st | st in keys :: |keys[st]| <= |buckets|
    requires forall w: WorkerId, t: StateId :: Tracked(keys, buckets, loc, trackers, w, t)
    requires Answered(keys, results, trackers)
    ensures SameShape(keys, res)
    ensures forall w: WorkerId, t: StateId :: Placed(res, results, trackers, w, t)
  {
    res := map st | st in keys :: seq(|keys[st]|, _ => []);
    var rest := results.Keys;
    ghost var done: set<WorkerId> := {};
    while rest != {}
      invariant rest <= results.Keys && SameShape(keys, res) && done == results.Keys - rest
      invariant forall w: WorkerId, t: StateId | w in done :: Placed(res, results, trackers, w, t)
      decreases rest
    {
      var v: WorkerId :| v in rest;
      res := MergeWorker(keys, results, trackers, v, res, buckets, loc, done);
      rest, done := rest - {v}, done + {v};
    }
    forall w: WorkerId, t: StateId ensures Placed(res, results, trackers, w, t) {
      if w !in done { assert Row(results, w, t) == []; }
    }
  }

  /** Scatter and gather are the identity: whatever the workers answer, index i of
      the result is what the worker that stores key i answered for key i. */
  lemma ScatterGatherIdentity(keys: Request, buckets: seq<Bucket>, loc: (Key, Bucket) -> WorkerId,
                              byWorker: ByWorker<Key>, trackers: ByWorker<nat>,
                              results: ByWorker<Value>, res: Answers, answer: (WorkerId, Key) -> Value, st: StateId,
                              i: nat)
    requires forall st | st in keys :: |keys[st]| <= |buckets|
    requires forall w: WorkerId, t: StateId :: Tracked(keys, buckets, loc, trackers, w, t)
    requires forall w: WorkerId, t: StateId :: Matches(keys, byWorker, trackers, w, t)
    requires Answered(keys, results, trackers) && SameShape(keys, res)
    requires forall w: WorkerId, t: StateId :: Placed(res, results, trackers, w, t)
    requires forall w: WorkerId, t: StateId, j | 0 <= j < |Row(results, w, t)| && j < |Row(byWorker, w, t)| ::
               Row(results, w, t)[j] == answer(w, Row(byWorker, w, t)[j])
    requires st in keys && i < |keys[st]|
    ensures res[st][i] == answer(loc(keys[st][i], buckets[i]), keys[st][i])
  {
    var w := loc(keys[st][i], buckets[i]);
    assert Tracked(keys, buckets, loc, trackers, w, st) && Matches(keys, byWorker, trackers, w, st);
    SlotsPartition(keys[st], buckets, loc, w);
    var r := Row(trackers, w, st);
    assert i in r;
    var j :| 0 <= j < |r| && r[j] == i;
    assert Placed(res, results, trackers, w, st) && |Row(results, w, st)| == |r|;
    assert Row(results, w, st)[j] == answer(w, Row(byWorker, w, st)[j]);
  }
}

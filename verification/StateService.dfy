/**
 The state service of one worker: the loops behind eventual migration, updating
 the service in place. Each is tied to the step of the distributed model it is.
 */
module StateService {
  import opened Types
  import opened KeyedStore

  /** One bucket of an eventual migration message, and the cancelling workers
      that may still store keys of it. */
  datatype AffectedBucket = AffectedBucket(bucket: Bucket, workers: seq<WorkerId>)

  type KeyMaps = map<Bucket, map<Key, WorkerId>>

  /** The buckets of the message to migrate off x, in the order of the message. */
  function BucketsFor(infos: seq<AffectedBucket>, x: WorkerId): seq<Bucket> {
    if infos == [] then []
    else BucketsFor(infos[..|infos| - 1], x) + Mentions(infos[|infos| - 1].bucket, infos[|infos| - 1].workers, x)
  }

  function Mentions(b: Bucket, workers: seq<WorkerId>, x: WorkerId): seq<Bucket> {
    if workers == [] then []
    else Mentions(b, workers[..|workers| - 1], x) + if workers[|workers| - 1] == x then [b] else []
  }

  lemma {:induction false} MentionsIff(b: Bucket, workers: seq<WorkerId>, x: WorkerId, d: Bucket)
    ensures d in Mentions(b, workers, x) <==> d == b && x in workers
  {
    if workers != [] {
      var init, last := workers[..|workers| - 1], workers[|workers| - 1];
      MentionsIff(b, init, x, d);
      assert workers == init + [last];
    }
  }

  /** A bucket is grouped under x exactly if the message names x for it. */
  lemma {:induction false} BucketsForIff(infos: seq<AffectedBucket>, x: WorkerId, b: Bucket)
    ensures b in BucketsFor(infos, x) <==> exists i :: 0 <= i < |infos| && infos[i].bucket == b && x in infos[i].workers
  {
    if infos != [] {
      var init, last := infos[..|infos| - 1], infos[|infos| - 1];
      BucketsForIff(init, x, b);
      MentionsIff(last.bucket, last.workers, x, b);
      assert infos == init + [last];
      if b in BucketsFor(init, x) {
        var i :| 0 <= i < |init| && init[i].bucket == b && x in init[i].workers;
        assert infos[i] == init[i];
      }
      if i :| 0 <= i < |infos| && infos[i].bucket == b && x in infos[i].workers {
        assert i < |init| ==> init[i] == infos[i];
      }
    }
  }

  lemma {:induction false} MentionsOnce(b: Bucket, workers: seq<WorkerId>, x: WorkerId)
    requires Distinct(workers)
    ensures Mentions(b, workers, x) == if x in workers then [b] else []
  {
    if workers != [] {
      var init, last := workers[..|workers| - 1], workers[|workers| - 1];
      assert workers == init + [last] && last !in init;
      MentionsOnce(b, init, x);
    }
  }

  /** Each bucket is named once, from low to high, with each worker once. */
  ghost predicate Tidy(infos: seq<AffectedBucket>) {
    && (forall i, j :: 0 <= i < j < |infos| ==> infos[i].bucket < infos[j].bucket)
    && (forall i | 0 <= i < |infos| :: Distinct(infos[i].workers))
  }

  /** The buckets of such a message are grouped once each and in this order. */
  lemma {:induction false} BucketsForInOrder(infos: seq<AffectedBucket>, x: WorkerId)
    requires Tidy(infos)
    ensures var bs := BucketsFor(infos, x); forall i, j :: 0 <= i < j < |bs| ==> bs[i] < bs[j]
  {
    if infos != [] {
      var n := |infos| - 1;
      var init, last := infos[..n], infos[n];
      assert Distinct(infos[n].workers) && forall i | 0 <= i < n :: init[i] == infos[i];
      BucketsForInOrder(init, x);
      MentionsOnce(last.bucket, last.workers, x);
      var bs := BucketsFor(init, x);
      forall i | 0 <= i < |bs| ensures bs[i] < last.bucket {
        assert bs[i] in bs;
        BucketsForIff(init, x, bs[i]);
      }
      assert BucketsFor(infos, x) == bs + if x in last.workers then [last.bucket] else [];
      AscendingAppend(bs, if x in last.workers then [last.bucket] else []);
    }
  }

  lemma AscendingAppend(bs: seq<Bucket>, last: seq<Bucket>)
    requires |last| <= 1 && forall i, j :: 0 <= i < j < |bs| ==> bs[i] < bs[j]
    requires last != [] ==> forall i | 0 <= i < |bs| :: bs[i] < last[0]
    ensures forall i, j :: 0 <= i < j < |bs + last| ==> (bs + last)[i] < (bs + last)[j]
  {
  }

  function Under(grouped: map<WorkerId, seq<Bucket>>, x: WorkerId): seq<Bucket> {
    if x in grouped then grouped[x] else []
  }

  /** What grouping the message by cancelling worker gives. */
  ghost predicate Grouping(infos: seq<AffectedBucket>, grouped: map<WorkerId, seq<Bucket>>) {
    && (forall x: WorkerId :: Under(grouped, x) == BucketsFor(infos, x))
    && (forall x | x in grouped :: grouped[x] != [])
  }

  ghost predicate GroupedAt(before: map<WorkerId, seq<Bucket>>, grouped: map<WorkerId, seq<Bucket>>,
                            info: AffectedBucket, j: nat, x: WorkerId)
    requires j <= |info.workers|
  {
    Under(grouped, x) == Under(before, x) + Mentions(info.bucket, info.workers[..j], x)
  }

  method GroupOne(ghost infos: seq<AffectedBucket>, info: AffectedBucket, before: map<WorkerId, seq<Bucket>>)
    returns (grouped: map<WorkerId, seq<Bucket>>)
    requires Grouping(infos, before)
    ensures Grouping(infos + [info], grouped)
  {
    grouped := before;
    for j := 0 to |info.workers|
      invariant forall x: WorkerId :: GroupedAt(before, grouped, info, j, x)
      invariant forall x | x in grouped :: grouped[x] != []
    {
      var w := info.workers[j];
      var next := grouped[w := Under(grouped, w) + [info.bucket]];
      ghost var n := j + 1;
      forall x: WorkerId ensures GroupedAt(before, next, info, n, x) {
        assert GroupedAt(before, grouped, info, j, x);
        MentionsNext(info.bucket, info.workers, j, x);
      }
      grouped := next;
    }
    forall x: WorkerId ensures Under(grouped, x) == BucketsFor(infos + [info], x) {
      assert GroupedAt(before, grouped, info, |info.workers|, x);
      assert info.workers[..|info.workers|] == info.workers;
      BucketsForNext(infos, info, x);
    }
  }

  lemma MentionsNext(b: Bucket, workers: seq<WorkerId>, j: nat, x: WorkerId)
    requires j < |workers|
    ensures Mentions(b, workers[..j + 1], x) == Mentions(b, workers[..j], x) + if workers[j] == x then [b] else []
  {
    assert workers[..j + 1][..j] == workers[..j];
  }

  lemma BucketsForNext(infos: seq<AffectedBucket>, info: AffectedBucket, x: WorkerId)
    ensures BucketsFor(infos + [info], x) == BucketsFor(infos, x) + Mentions(info.bucket, info.workers, x)
  {
    assert (infos + [info])[..|infos|] == infos;
  }

  function Eligibles(maps: KeyMaps, x: WorkerId, dup: set<Key>, b: Bucket): set<Key> {
    if b in maps then set k | k in maps[b] && maps[b][k] == x && k !in dup else {}
  }

  lemma {:induction false} DistinctSize<T>(s: seq<T>)
    requires Distinct(s)
    ensures |Elements(s)| == |s|
  {
    if s != [] {
      var init, last := s[..|s| - 1], s[|s| - 1];
      DistinctSize(init);
      assert s == init + [last];
      assert Elements(s) == Elements(init) + {last};
    }
  }

  /** Every key is filed under its own bucket. */
  ghost predicate Filed(c: Config, maps: KeyMaps) {
    forall b, k | b in maps && k in maps[b] :: c.bucketOf(k) == b
  }

  /** Every collected key is eligible in the bucket it was found in. */
  ghost predicate Collected(maps: KeyMaps, x: WorkerId, dup: set<Key>, affected: seq<Bucket>,
                            finished: set<(WorkerId, Bucket)>,
                            keys: seq<Key>, buckets: seq<Bucket>)
  {
    && |keys| == |buckets|
    && forall i | 0 <= i < |keys| ::
         buckets[i] in affected && (x, buckets[i]) !in finished && keys[i] in Eligibles(maps, x, dup, buckets[i])
  }

  function Local(maps: KeyMaps, b: Bucket, k: Key, w: WorkerId): KeyMaps
  {
    if b !in maps then maps
    else
      var row: map<Key, WorkerId> := maps[b][k := w];
      maps[b := row]
  }

  /** The key maps after UpdateKey of each key. */
  function Relocated(maps: KeyMaps, keys: seq<Key>, buckets: seq<Bucket>, w: WorkerId): KeyMaps
    requires |keys| == |buckets|
  {
    if keys == [] then maps
    else
      var n := |keys| - 1;
      var m := Relocated(maps, keys[..n], buckets[..n], w);
      Local(m, buckets[n], keys[n], w)
  }

  /** UpdateKey aborts on a key that is not listed. */
  predicate Present(maps: KeyMaps, keys: seq<Key>, buckets: seq<Bucket>) {
    |keys| == |buckets| && forall i | 0 <= i < |keys| :: buckets[i] in maps && keys[i] in maps[buckets[i]]
  }

  predicate SameKeys(maps: KeyMaps, maps': KeyMaps) {
    maps'.Keys == maps.Keys && forall b | b in maps :: maps'[b].Keys == maps[b].Keys
  }

  /** The lookup table of a worker on its own, in the distributed model. */
  function OwnMaps(w: WorkerId, maps: KeyMaps): Maps {
    Maps(map b | b in maps :: (w, b) := Entry(w, Some(maps[b])), map[], map b | b in maps :: At(w))
  }

  lemma OwnMapAt(w: WorkerId, maps: KeyMaps, b: Bucket)
    ensures MapAt(OwnMaps(w, maps), w, b) == if b in maps then maps[b] else map[]
  {
    var t := OwnMaps(w, maps).table;
    assert (w, b) in t <==> b in maps;
    assert b in maps ==> t[(w, b)] == Entry(w, Some(maps[b]));
  }

  lemma OwnEligible(s: Store, w: WorkerId, maps: KeyMaps, x: WorkerId, dup: set<Key>, b: Bucket)
    requires s.maps == OwnMaps(w, maps)
    ensures Eligible(s, w, x, dup, b) == Eligibles(maps, x, dup, b)
  {
    OwnMapAt(w, maps, b);
  }

  class StateService {
    const id: WorkerId
    var maps: KeyMaps                          // key maps of the owned buckets
    var backend: map<Key, Value>
    var affected: map<WorkerId, seq<Bucket>>
    var locks: set<Bucket>                     // buckets that have a lock
    var finished: set<(WorkerId, Bucket)>
    var done: set<WorkerId>
    var remaining: int
    var enabled: bool
    var signals: nat                           // signals of the end of eventual migration

    constructor (id: WorkerId)
      ensures this.id == id && maps == map[] && backend == map[] && affected == map[] && done == {}
      ensures remaining == 0 && !enabled && signals == 0 && LocksOk()
    {
      this.id := id;
      maps, backend, affected, locks, finished := map[], map[], map[], {}, {};
      done, remaining, enabled, signals := {}, 0, false, 0;
    }

    /** The affected buckets have locks while the migration is on. At its end the
        locks and the finished buckets are dropped. */
    ghost predicate LocksOk()
      reads this
    {
      && (enabled <==> remaining != 0)
      && (enabled ==> forall x, b | x in affected && b in affected[x] :: b in locks)
      && (!enabled ==> locks == {} && finished == {})
    }

    function Migration(): Eventual
      reads this
    {
      Eventual(affected, finished, done, remaining, enabled, true)
    }

    /** This worker in the distributed model. */
    function View(): Store
      reads this
    {
      Store(OwnMaps(id, maps),
            map k | k in backend :: (id, k) := backend[k],
            map[],
            map[id := Migration()])
    }

    /** The message becomes the new migration, grouped by cancelling worker. */
    method SetEventualMigrationMeta(infos: seq<AffectedBucket>)
      requires infos != [] && remaining == 0
      modifies this`affected, this`locks, this`finished, this`done, this`remaining, this`enabled
      ensures Grouping(infos, affected) && (affected != map[] ==> LocksOk())
      ensures Migration() == Eventual(affected, {}, {}, |affected|, true, true)
    {
      var grouped: map<WorkerId, seq<Bucket>> := map[];
      for i := 0 to |infos|
        invariant Grouping(infos[..i], grouped)
      {
        assert infos[..i + 1][..i] == infos[..i];
        grouped := GroupOne(infos[..i], infos[i], grouped);
        assert infos[..i] + [infos[i]] == infos[..i + 1];
      }
      assert infos[..|infos|] == infos;
      affected := grouped;
      locks := set i | 0 <= i < |infos| :: infos[i].bucket;
      finished, done, remaining, enabled := {}, {}, |grouped|, true;
      forall x, b | x in affected && b in affected[x] ensures b in locks {
        assert Under(affected, x) == BucketsFor(infos, x);
        BucketsForIff(infos, x, b);
      }
    }

    /** One bucket of a scan: the eligible keys in some order, up to the limit. */
    method ScanBucket(x: WorkerId, dup: set<Key>, maxKeys: int, b: Bucket, count: nat)
      returns (found: seq<Key>, full: bool)
      requires b in maps && (maxKeys > 0 ==> count < maxKeys)
      ensures Distinct(found) && forall k | k in found :: k in Eligibles(maps, x, dup, b)
      ensures full ==> maxKeys > 0 && count + |found| == maxKeys
      ensures !full ==> forall k | k in Eligibles(maps, x, dup, b) :: k in found
      ensures !full && maxKeys > 0 ==> count + |found| < maxKeys
    {
      found, full := [], false;
      var row := maps[b];
      var rest := row.Keys;
      while rest != {}
        invariant rest <= row.Keys && Distinct(found)
        invariant forall k | k in found :: k in Eligibles(maps, x, dup, b) && k !in rest
        invariant forall k | k in Eligibles(maps, x, dup, b) && k !in rest :: k in found
        invariant maxKeys > 0 ==> count + |found| < maxKeys
        decreases rest
      {
        var k :| k in rest;
        rest := rest - {k};
        if row[k] == x && k !in dup {
          found := found + [k];
          if maxKeys > 0 && count + |found| >= maxKeys {
            full := true;
            return;
          }
        }
      }
    }

    /** One scan of the affected buckets of x; finished buckets are skipped, and a
        bucket is finished once all its keys at x are collected or already being
        fetched. Without its lock a bucket cannot be read: a scan after the end of
        the migration fails at its first bucket. */
    method GetKeysForEventualMigration(ghost c: Config, x: WorkerId, dup: set<Key>, maxKeys: int)
      returns (ok: bool, keys: seq<Key>, buckets: seq<Bucket>, allDone: bool)
      requires LocksOk() && x in affected && affected[x] != [] && Filed(c, maps) && c.maxKeys == maxKeys
      requires forall b | b in affected[x] && (x, b) !in finished :: b in maps
      modifies this`finished
      ensures ok <==> enabled
      ensures ok ==> ScanResult(c, old(View()), id, x, dup, Elements(keys), finished, allDone)
      ensures ok ==> Collected(maps, x, dup, affected[x], old(finished), keys, buckets) && Distinct(keys)
      ensures !ok ==> finished == old(finished)
    {
      ok, keys, buckets, allDone := true, [], [], false;
      var todo := affected[x];
      for i := 0 to |todo|
        invariant ok && (i > 0 ==> enabled) && (i == 0 ==> finished == old(finished))
        invariant Collected(maps, x, dup, todo, old(finished), keys, buckets) && Distinct(keys)
        invariant old(finished) <= finished
        invariant forall j | 0 <= j < |buckets| :: (x, buckets[j]) in finished
        invariant forall p | p in finished - old(finished) ::
                    p.0 == x && p.1 in todo && forall k | k in Eligibles(maps, x, dup, p.1) :: k in keys
        invariant forall j | 0 <= j < i :: (x, todo[j]) in finished
        invariant maxKeys > 0 ==> |keys| < maxKeys
      {
        var b := todo[i];
        if (x, b) !in finished {
          if b !in locks {
            ok := false;
            return;
          }
          var found, full := ScanBucket(x, dup, maxKeys, b, |keys|);
          NewKeys(c, maps, x, dup, keys, buckets, found, b);
          keys, buckets := keys + found, buckets + seq(|found|, _ => b);
          if full {
            allDone := false;
            ScanRefines(c, old(View()), id, maps, x, dup, keys, buckets, finished, allDone);
            return;
          }
          finished := finished + {(x, b)};
        }
      }
      allDone := true;
      ScanRefines(c, old(View()), id, maps, x, dup, keys, buckets, finished, allDone);
    }

    /** The background routine of one chunk lists its keys as local. */
    method UpdateKeys(keys: seq<Key>, buckets: seq<Bucket>)
      requires Present(maps, keys, buckets)
      modifies this`maps
      ensures maps == Relocated(old(maps), keys, buckets, id)
      ensures SameKeys(old(maps), maps)
    {
      for i := 0 to |keys|
        invariant maps == Relocated(old(maps), keys[..i], buckets[..i], id)
        invariant SameKeys(old(maps), maps)
      {
        assert keys[..i + 1][..i] == keys[..i] && buckets[..i + 1][..i] == buckets[..i];
        assert keys[i] in maps[buckets[i]];
        maps := Local(maps, buckets[i], keys[i], id);
      }
      assert keys[..|keys|] == keys && buckets[..|keys|] == buckets;
    }

    /** The values arrive in order, in chunks of any size; each chunk is stored
        and then its keys are listed as local. */
    method FetchAdditionalKeysByTcp(keys: seq<Key>, buckets: seq<Bucket>, values: seq<Value>)
      requires |values| == |keys| && Present(maps, keys, buckets)
      modifies this`backend, this`maps
      ensures backend == SetMany(old(backend), keys, values)
      ensures maps == Relocated(old(maps), keys, buckets, id)
    {
      var offset := 0;
      while offset < |keys|
        invariant 0 <= offset <= |keys|
        invariant backend == SetMany(old(backend), keys[..offset], values[..offset])
        invariant maps == Relocated(old(maps), keys[..offset], buckets[..offset], id) && SameKeys(old(maps), maps)
      {
        var n :| 1 <= n <= |keys| - offset;
        var next := offset + n;
        backend := SetMany(backend, keys[offset..next], values[offset..next]);
        UpdateKeys(keys[offset..next], buckets[offset..next]);
        ChunkDone(old(backend), old(maps), keys, buckets, values, offset, next, id);
        offset := next;
      }
      assert keys[..|keys|] == keys && buckets[..|keys|] == buckets && values[..|keys|] == values;
    }

    /** The keys and their values at the cancelling worker, which answers a
        missing key with an empty value, move here. */
    method MoveKeys(keys: seq<Key>, buckets: seq<Bucket>, remote: map<Key, Value>)
      requires Present(maps, keys, buckets) && Distinct(keys)
      modifies this`backend, this`maps
      ensures forall k: Key | k in keys :: Lookup(backend, k) == Some(if k in remote then remote[k] else [])
      ensures forall k: Key | k !in keys :: Lookup(backend, k) == Lookup(old(backend), k)
      ensures forall b: Bucket, k: Key ::
                Listed(maps, b, k) == if Pair(keys, buckets, k, b) then Some(id) else Listed(old(maps), b, k)
    {
      var values := seq(|keys|, i requires 0 <= i < |keys| => if keys[i] in remote then remote[keys[i]] else []);
      FetchAdditionalKeysByTcp(keys, buckets, values);
      ghost var was, stored := old(maps), old(backend);
      forall k: Key
        ensures k in keys ==> Lookup(backend, k) == Some(if k in remote then remote[k] else [])
        ensures k !in keys ==> Lookup(backend, k) == Lookup(stored, k)
      {
        SetManyAt(stored, keys, values, k);
      }
      forall b: Bucket, k: Key
        ensures Listed(maps, b, k) == if Pair(keys, buckets, k, b) then Some(id) else Listed(was, b, k)
      {
        RelocatedAt(was, keys, buckets, id, b, k);
      }
    }

    /** The counter goes down at most once per worker; the last one ends the
        migration and signals it. */
    method FinishWorker(x: WorkerId)
      requires LocksOk() && enabled
      modifies this`done, this`remaining, this`enabled, this`locks, this`finished, this`signals
      ensures Migration() == CountDone(old(Migration()), x) && LocksOk()
      ensures signals == old(signals) + (if enabled then 0 else 1)
    {
      if x !in done {
        done := done + {x};
        remaining := remaining - 1;
        if remaining == 0 {
          enabled := false;
          locks := {};
          finished := {};
          signals := signals + 1;
        }
      }
    }

    /** One call for cancelling worker x. It fails, and changes nothing, exactly
        when the migration is over already. */
    method FetchAdditionalKeys(ghost c: Config, x: WorkerId, dup: set<Key>, maxKeys: int, remote: map<Key, Value>)
      returns (ok: bool, keys: seq<Key>, allDone: bool, ghost fin: set<(WorkerId, Bucket)>)
      requires LocksOk() && x in affected && affected[x] != [] && Filed(c, maps) && c.maxKeys == maxKeys
      requires forall b | b in affected[x] && (x, b) !in finished :: b in maps
      modifies this
      ensures ok <==> old(enabled)
      ensures !ok ==> unchanged(this)
      ensures LocksOk()
      ensures ok ==> ScanResult(c, old(View()), id, x, dup, Elements(keys), fin, allDone)
      ensures ok ==>
                var ev := old(Migration()).(finished := fin);
                Migration() == if allDone then CountDone(ev, x) else ev
      ensures ok ==> signals == old(signals) + (if enabled then 0 else 1)
      ensures ok ==> forall k: Key | k in keys :: Lookup(backend, k) == Some(if k in remote then remote[k] else [])
      ensures ok ==> forall k: Key | k !in keys :: Lookup(backend, k) == Lookup(old(backend), k)
      ensures ok ==> forall b: Bucket, k: Key ::
                var was := Listed(old(maps), b, k);
                Listed(maps, b, k) == if k in keys && was == Some(x) then Some(id) else was
    {
      var buckets;
      ok, keys, buckets, allDone := GetKeysForEventualMigration(c, x, dup, maxKeys);
      fin := finished;
      if !ok {
        return;
      }
      ghost var was := maps;
      if |keys| > 0 {
        MoveKeys(keys, buckets, remote);
        forall b: Bucket, k: Key ensures Pair(keys, buckets, k, b) <==> k in keys && Listed(was, b, k) == Some(x) {
          CollectedPair(c, was, x, dup, keys, buckets, b, k);
        }
      }
      if allDone {
        FinishWorker(x);
      }
    }
  }

  /** A collected key is filed where it was found, and only there. */
  lemma CollectedPair(c: Config, maps: KeyMaps, x: WorkerId, dup: set<Key>, keys: seq<Key>, buckets: seq<Bucket>,
                      b: Bucket, k: Key)
    requires Filed(c, maps) && |keys| == |buckets|
    requires forall i | 0 <= i < |keys| :: keys[i] in Eligibles(maps, x, dup, buckets[i])
    ensures Pair(keys, buckets, k, b) <==> k in keys && Listed(maps, b, k) == Some(x)
  {
    if k in keys && Listed(maps, b, k) == Some(x) {
      var i :| 0 <= i < |keys| && keys[i] == k;
      assert c.bucketOf(k) == b && c.bucketOf(k) == buckets[i];
    }
  }

  lemma ChunkDone(m: map<Key, Value>, maps: KeyMaps, keys: seq<Key>, buckets: seq<Bucket>, values: seq<Value>, i: nat,
                  j: nat, w: WorkerId)
    requires |keys| == |buckets| == |values| && i <= j <= |keys|
    ensures SetMany(SetMany(m, keys[..i], values[..i]), keys[i..j], values[i..j]) == SetMany(m, keys[..j], values[..j])
    ensures Relocated(Relocated(maps, keys[..i], buckets[..i], w), keys[i..j], buckets[i..j], w) ==
            Relocated(maps, keys[..j], buckets[..j], w)
  {
    assert keys[..i] + keys[i..j] == keys[..j] && values[..i] + values[i..j] == values[..j];
    assert buckets[..i] + buckets[i..j] == buckets[..j];
    SetManyAppend(m, keys[..i], values[..i], keys[i..j], values[i..j]);
    RelocatedAppend(maps, keys[..i], buckets[..i], keys[i..j], buckets[i..j], w);
  }

  lemma {:induction false} RelocatedAppend(maps: KeyMaps, k1: seq<Key>, b1: seq<Bucket>, k2: seq<Key>, b2: seq<Bucket>,
                                           w: WorkerId)
    requires |k1| == |b1| && |k2| == |b2|
    ensures Relocated(maps, k1 + k2, b1 + b2, w) == Relocated(Relocated(maps, k1, b1, w), k2, b2, w)
  {
    if k2 == [] {
      assert k1 + k2 == k1 && b1 + b2 == b1;
    } else {
      var n, ks, bs := |k2| - 1, k1 + k2, b1 + b2;
      RelocatedAppend(maps, k1, b1, k2[..n], b2[..n], w);
      assert ks[..|ks| - 1] == k1 + k2[..n] && bs[..|ks| - 1] == b1 + b2[..n];
      assert ks[|ks| - 1] == k2[n] && bs[|ks| - 1] == b2[n];
    }
  }

  function Listed(maps: KeyMaps, b: Bucket, k: Key): Option<WorkerId> {
    if b in maps then Lookup(maps[b], k) else None
  }

  ghost predicate Pair(keys: seq<Key>, buckets: seq<Bucket>, k: Key, b: Bucket)
    requires |keys| == |buckets|
  {
    exists i :: 0 <= i < |keys| && keys[i] == k && buckets[i] == b
  }

  /** The backend after storing keys[i] with values[i], in order. */
  function SetMany(m: map<Key, Value>, keys: seq<Key>, values: seq<Value>): map<Key, Value>
    requires |keys| == |values|
  {
    if keys == [] then m
    else
      var n := |keys| - 1;
      SetMany(m, keys[..n], values[..n])[keys[n] := values[n]]
  }

  lemma {:induction false} SetManyAppend(m: map<Key, Value>, k1: seq<Key>, v1: seq<Value>, k2: seq<Key>, v2: seq<Value>)
    requires |k1| == |v1| && |k2| == |v2|
    ensures SetMany(m, k1 + k2, v1 + v2) == SetMany(SetMany(m, k1, v1), k2, v2)
  {
    if k2 == [] {
      assert k1 + k2 == k1 && v1 + v2 == v1;
    } else {
      var n := |k2| - 1;
      SetManyAppend(m, k1, v1, k2[..n], v2[..n]);
      assert (k1 + k2)[..|k1| + n] == k1 + k2[..n] && (v1 + v2)[..|k1| + n] == v1 + v2[..n];
    }
  }

  /** Distinct keys are stored each with its own value; nothing else changes. */
  lemma {:induction false} SetManyAt(m: map<Key, Value>, keys: seq<Key>, values: seq<Value>, k: Key)
    requires |keys| == |values| && Distinct(keys)
    ensures k !in keys ==> Lookup(SetMany(m, keys, values), k) == Lookup(m, k)
    ensures forall i | 0 <= i < |keys| && keys[i] == k :: Lookup(SetMany(m, keys, values), k) == Some(values[i])
  {
    if keys != [] {
      var n := |keys| - 1;
      SetManyAt(m, keys[..n], values[..n], k);
    }
  }

  /** Exactly the given entries are listed as local. */
  lemma {:induction false} RelocatedAt(maps: KeyMaps, keys: seq<Key>, buckets: seq<Bucket>, w: WorkerId, b: Bucket,
                                       k: Key)
    requires |keys| == |buckets| && forall b | b in buckets :: b in maps
    ensures Relocated(maps, keys, buckets, w).Keys == maps.Keys
    ensures Listed(Relocated(maps, keys, buckets, w), b, k) ==
            if Pair(keys, buckets, k, b) then Some(w) else Listed(maps, b, k)
  {
    if keys != [] {
      var n := |keys| - 1;
      RelocatedAt(maps, keys[..n], buckets[..n], w, b, k);
      assert Pair(keys, buckets, k, b) <==>
          Pair(keys[..n], buckets[..n], k, b) || (keys[n] == k && buckets[n] == b) by {
        if Pair(keys[..n], buckets[..n], k, b) {
          var i :| 0 <= i < n && keys[..n][i] == k && buckets[..n][i] == b;
          assert keys[i] == k && buckets[i] == b;
        }
        if Pair(keys, buckets, k, b) {
          var i :| 0 <= i < |keys| && keys[i] == k && buckets[i] == b;
          assert i < n ==> keys[..n][i] == k && buckets[..n][i] == b;
        }
      }
    }
  }

  /** What the scan loop returns is a scan of the distributed model. */
  lemma ScanRefines(c: Config, s: Store, w: WorkerId, maps: KeyMaps, x: WorkerId, dup: set<Key>,
                    keys: seq<Key>, buckets: seq<Bucket>, finished: set<(WorkerId, Bucket)>, allDone: bool)
    requires s.maps == OwnMaps(w, maps) && x in EventualOf(s, w).affected
    requires Collected(maps, x, dup, EventualOf(s, w).affected[x], EventualOf(s, w).finished, keys, buckets)
    requires Distinct(keys)
    requires EventualOf(s, w).finished <= finished
    requires forall p | p in finished - EventualOf(s, w).finished ::
               p.0 == x && p.1 in EventualOf(s, w).affected[x] && forall k | k in Eligibles(maps, x, dup, p.1) ::
                   k in keys
    requires allDone ==> forall b | b in EventualOf(s, w).affected[x] :: (x, b) in finished
    requires !allDone ==> c.maxKeys > 0 && |keys| == c.maxKeys
    ensures ScanResult(c, s, w, x, dup, Elements(keys), finished, allDone)
  {
    var ev := EventualOf(s, w);
    forall b: Bucket
      ensures Eligible(s, w, x, dup, b) == Eligibles(maps, x, dup, b)
    {
      OwnEligible(s, w, maps, x, dup, b);
    }
    DistinctSize(keys);
    forall k | k in keys
      ensures exists b :: b in ev.affected[x] && (x, b) !in ev.finished && k in Eligible(s, w, x, dup, b)
    {
      var i :| 0 <= i < |keys| && keys[i] == k;
      assert buckets[i] in ev.affected[x] && (x, buckets[i]) !in ev.finished && k in Eligible(s, w, x, dup, buckets[i]);
    }
  }

  /** Keys found in a bucket not looked at before are new. */
  lemma NewKeys(c: Config, maps: KeyMaps, x: WorkerId, dup: set<Key>, keys: seq<Key>, buckets: seq<Bucket>,
                found: seq<Key>, b: Bucket)
    requires Filed(c, maps) && |keys| == |buckets| && Distinct(keys) && Distinct(found)
    requires forall i | 0 <= i < |keys| :: keys[i] in Eligibles(maps, x, dup, buckets[i]) && buckets[i] != b
    requires forall k | k in found :: k in Eligibles(maps, x, dup, b)
    ensures Distinct(keys + found)
  {
    forall i, j | 0 <= i < j < |keys + found| ensures (keys + found)[i] != (keys + found)[j] {
      if i < |keys| <= j {
        var k, k' := keys[i], found[j - |keys|];
        assert k in Eligibles(maps, x, dup, buckets[i]) && k' in Eligibles(maps, x, dup, b);
        assert c.bucketOf(k) == buckets[i] && c.bucketOf(k') == b;
      }
    }
  }
}

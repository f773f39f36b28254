/**
 The key map codec as it runs: a writer that fills a fixed buffer by offset and
 patches its length fields afterwards, and a key lookup table that sends and
 installs key maps.
 */
module KeyMapCodec {
  import opened Types
  import opened KeyedStore
  import opened KeyMapFormat

  /** A serialized key map under construction for one destination. */
  class KeyMapWriter {
    const data: array<byte>
    ghost const kind: seq<byte>                // the work unit type field
    var offset: nat
    var numBuckets: nat
    ghost var buckets: seq<BucketMap>          // what has been added

    /** What has been written. */
    ghost function Bytes(): seq<byte>
      requires offset <= data.Length
      reads this, data
    {
      data[..offset]
    }

    ghost predicate Valid()
      reads this, data
    {
      && 10 <= offset <= data.Length
      && numBuckets == |buckets|
      && |kind| == 2 && Bytes()[..2] == kind && Bytes()[10..] == PutBuckets(buckets)
    }

    constructor (capacity: nat, kind: seq<byte>)
      requires capacity >= 10 && |kind| == 2
      ensures Valid() && buckets == [] && data.Length == capacity && fresh(data) && this.kind == kind
    {
      data := new byte[capacity](_ => 0);
      this.kind := kind;
      offset, numBuckets, buckets := 10, 0, [];
      new;
      data[0], data[1] := kind[0], kind[1];
    }

    /** Copies bytes into the buffer at a given place. */
    method Put(at: nat, bytes: seq<byte>)
      requires at + |bytes| <= data.Length
      modifies data
      ensures data[..at] == old(data[..at])
      ensures data[at..at + |bytes|] == bytes
      ensures data[at + |bytes|..] == old(data[at + |bytes|..])
    {
      for i := 0 to |bytes|
        invariant forall j | 0 <= j < data.Length :: data[j] == if at <= j < at + i then bytes[j - at] else old(data[j])
      {
        data[at + i] := bytes[i];
      }
    }

    method Append(bytes: seq<byte>)
      requires offset + |bytes| <= data.Length
      modifies this`offset, data
      ensures offset == old(offset) + |bytes|
      ensures Bytes() == old(Bytes()) + bytes
    {
      Put(offset, bytes);
      offset := offset + |bytes|;
      assert data[..offset] == data[..old(offset)] + data[old(offset)..offset];
    }

    /** Leaves room for a length field. */
    method Reserve() returns (at: nat, ghost gap: seq<byte>)
      requires offset + 4 <= data.Length
      modifies this`offset
      ensures at == old(offset) && offset == at + 4 && |gap| == 4
      ensures Bytes() == old(Bytes()) + gap
    {
      at := offset;
      gap := data[offset..offset + 4];
      offset := offset + 4;
      assert data[..offset] == data[..at] + gap;
    }

    /** Fills a length field that was left open. */
    method Patch(at: nat, n: uint32)
      requires at + 4 <= offset <= data.Length
      modifies data
      ensures Bytes() == old(Bytes())[..at] + Put32(n) + old(Bytes())[at + 4..]
    {
      Put(at, Put32(n));
      assert data[..offset] == data[..at] + data[at..at + 4] + data[at + 4..][..offset - at - 4];
      assert old(data[at + 4..])[..offset - at - 4] == old(Bytes())[at + 4..];
    }

    method AppendHead(operator: seq<byte>, bucket: uint32, n: uint32)
      requires |operator| == 2 && offset + 10 <= data.Length
      modifies this`offset, data
      ensures offset == old(offset) + 10
      ensures Bytes() == old(Bytes()) + (operator + Put32(bucket) + Put32(n))
    {
      var a, b := Put32(bucket), Put32(n);
      Append(operator);
      Append(a);
      Append(b);
      Shift3(old(Bytes()), operator, a, b);
    }

    method AppendEntry(k: Key, owner: WorkerId)
      requires 6 <= |k| < 6 + 0x1_0000 && offset + |k| - 2 <= data.Length
      modifies this`offset, data
      ensures offset == old(offset) + |k| - 2
      ensures Bytes() == old(Bytes()) + PutEntry(k, owner)
    {
      EntryBytes(k, owner);
      var a, b, c := Put16(|k| - 6), k[6..], Put16(owner);
      Append(a);
      Append(b);
      Append(c);
      Shift3(old(Bytes()), a, b, c);
    }

    /** Writes the entries and counts the bytes of their keys. */
    method AppendEntries(order: seq<Key>, owners: map<Key, WorkerId>) returns (bytes: nat)
      requires forall k | k in order :: k in owners && 6 <= |k| < 6 + 0x1_0000
      requires offset + |PutEntries(order, owners)| <= data.Length
      modifies this`offset, data
      ensures offset == old(offset) + |PutEntries(order, owners)|
      ensures Bytes() == old(Bytes()) + PutEntries(order, owners)
      ensures bytes + 4 * |order| == |PutEntries(order, owners)|
    {
      bytes := 0;
      for i := 0 to |order|
        invariant offset == old(offset) + |PutEntries(order[..i], owners)| && offset <= data.Length
        invariant Bytes() == old(Bytes()) + PutEntries(order[..i], owners)
        invariant bytes + 4 * i == |PutEntries(order[..i], owners)|
      {
        var k := order[i];
        assert k in order;
        EntriesNext(order, owners, i);
        PrefixFits(order, owners, i + 1);
        AppendEntry(k, owners[k]);
        Shift(old(Bytes()), PutEntries(order[..i], owners), PutEntry(k, owners[k]));
        bytes := bytes + |k| - 6;
      }
      assert order[..|order|] == order;
    }

    /** Writes a bucket without its length field. `first` is whichever key a first
        pass over the map meets, and m.order the order of a second pass. */
    method AppendBody(m: BucketMap, first: Key, ghost op: seq<byte>) returns (total: nat)
      requires Encodable(m, op) && (m.order != [] ==> first in m.owners)
      requires offset + |Body(m)| <= data.Length
      modifies this`offset, data
      ensures total == |Body(m)| && offset == old(offset) + total
      ensures Bytes() == old(Bytes()) + Body(m)
    {
      BodyIs(m);
      OperatorAny(m, op, first);
      ghost var before, head := Bytes(), OperatorOf(m) + Put32(m.bucket) + Put32(|m.order|);
      AppendHead(if |m.order| == 0 then [0, 0] else first[..2], m.bucket, |m.order|);
      var bytes := AppendEntries(m.order, m.owners);
      Shift(before, head, PutEntries(m.order, m.owners));
      total := 10 + |m.order| * 4 + bytes;
    }

    /** A bucket with its length field, which is filled last. */
    method AppendBucket(m: BucketMap, first: Key, ghost op: seq<byte>)
      requires Encodable(m, op) && (m.order != [] ==> first in m.owners)
      requires offset + |PutBucket(m)| <= data.Length
      modifies this`offset, data
      ensures offset == old(offset) + |PutBucket(m)| && offset <= data.Length
      ensures Bytes() == old(Bytes()) + PutBucket(m)
    {
      BodyIs(m);
      ghost var before := Bytes();
      var at, gap := Reserve();
      var total := AppendBody(m, first, op);
      Patch(at, total);
      Patched(before, gap, Body(m), Put32(total));
    }

    method AddBucket(m: BucketMap, first: Key, ghost op: seq<byte>)
      requires Valid() && Encodable(m, op) && (m.order != [] ==> first in m.owners)
      requires offset + |PutBucket(m)| <= data.Length
      modifies this, data
      ensures Valid() && buckets == old(buckets) + [m] && offset == old(offset) + |PutBucket(m)|
    {
      ghost var before := Bytes();
      AppendBucket(m, first, op);
      numBuckets := numBuckets + 1;
      buckets := buckets + [m];
      BucketsNext(old(buckets), m);
      Tails(before, PutBucket(m));
    }

    /** Fills the header and returns the message. */
    method Done() returns (message: seq<byte>)
      requires Valid() && offset < 0x1_0000_0000
      modifies data
      ensures 6 <= |message| == offset
      ensures message == kind + Put32(offset - 6) + Put32(Low32(|buckets|)) + PutBuckets(buckets)
    {
      ghost var before := Bytes();
      Patch(2, offset - 6);
      Patch(6, Low32(numBuckets));
      message := data[..offset];
      Header(before, Put32(offset - 6), Put32(Low32(numBuckets)));
    }
  }

  lemma Shift3(x: seq<byte>, a: seq<byte>, b: seq<byte>, c: seq<byte>)
    ensures x + a + b + c == x + (a + b + c)
  {
  }

  lemma Patched(before: seq<byte>, gap: seq<byte>, body: seq<byte>, len: seq<byte>)
    requires |gap| == |len| == 4
    ensures (before + gap + body)[..|before|] + len + (before + gap + body)[|before| + 4..] == before + (len + body)
  {
  }

  lemma Tails(before: seq<byte>, bucket: seq<byte>)
    requires |before| >= 10
    ensures (before + bucket)[..2] == before[..2] && (before + bucket)[10..] == before[10..] + bucket
  {
  }

  lemma Header(before: seq<byte>, len: seq<byte>, num: seq<byte>)
    requires |before| >= 10 && |len| == |num| == 4
    ensures var one := before[..2] + len + before[6..];
            one[..6] + num + one[10..] == before[..2] + len + num + before[10..]
  {
  }

  lemma BucketsNext(ms: seq<BucketMap>, m: BucketMap)
    ensures PutBuckets(ms + [m]) == PutBuckets(ms) + PutBucket(m)
  {
    assert BucketChunks(ms + [m]) == BucketChunks(ms) + [PutBucket(m)];
    ConcatAppend(BucketChunks(ms), PutBucket(m));
  }

  /** Any key gives the operator of the bucket. */
  lemma OperatorAny(m: BucketMap, op: seq<byte>, first: Key)
    requires Encodable(m, op) && (m.order != [] ==> first in m.owners)
    ensures m.order != [] ==> |first| >= 2 && first[..2] == OperatorOf(m)
    ensures m.order == [] ==> OperatorOf(m) == [0, 0]
  {
    if m.order != [] {
      var k := m.order[0];
      assert k in m.order && HasPrefix(k, op, m.bucket) && HasPrefix(first, op, m.bucket);
      assert k[..2] == k[..6][..2] && first[..2] == first[..6][..2];
    }
  }

  lemma EntriesNext(order: seq<Key>, owners: map<Key, WorkerId>, i: nat)
    requires i < |order|
    ensures PutEntries(order[..i + 1], owners) == PutEntries(order[..i], owners) + PutListed(order[i], owners)
  {
    assert EntryChunks(order[..i + 1], owners) == EntryChunks(order[..i], owners) + [PutListed(order[i], owners)];
    ConcatAppend(EntryChunks(order[..i], owners), PutListed(order[i], owners));
  }

  lemma {:induction false} PrefixFits(order: seq<Key>, owners: map<Key, WorkerId>, i: nat)
    requires i <= |order|
    ensures |PutEntries(order[..i], owners)| <= |PutEntries(order, owners)|
    decreases |order| - i
  {
    if i < |order| {
      EntriesNext(order, owners, i);
      PrefixFits(order, owners, i + 1);
    } else {
      assert order[..i] == order;
    }
  }

  // --------------------------------------------------------- lookup table

  type Table = seq<Entry>

  /** The table after installing received key maps, in order. */
  function Installed(t: Table, rs: seq<Received>, local: WorkerId): (t': Table)
    ensures |t'| == |t|
  {
    if rs == [] then t
    else
      var n, t1 := |rs| - 1, Installed(t, rs[..|rs| - 1], local);
      if rs[n].bucket < |t| then t1[rs[n].bucket := Entry(local, Some(rs[n].owners))] else t1
  }

  predicate DistinctBuckets(rs: seq<Received>) {
    forall i, j :: 0 <= i < j < |rs| ==> rs[i].bucket != rs[j].bucket
  }

  /** Each received bucket gets exactly its map and the local owner; all others
      keep theirs. */
  lemma {:induction false} InstalledAt(t: Table, rs: seq<Received>, local: WorkerId, b: nat)
    requires DistinctBuckets(rs) && b < |t|
    ensures (forall i | 0 <= i < |rs| :: rs[i].bucket != b) ==> Installed(t, rs, local)[b] == t[b]
    ensures forall i | 0 <= i < |rs| && rs[i].bucket == b ::
            Installed(t, rs, local)[b] == Entry(local, Some(rs[i].owners))
  {
    if rs != [] {
      InstalledAt(t, rs[..|rs| - 1], local, b);
    }
  }

  /** A bucket may be installed over no map or an empty one. */
  predicate Installable(t: Table, rs: seq<Received>) {
    && DistinctBuckets(rs)
    && forall i | 0 <= i < |rs| ::
         rs[i].bucket < |t| && (t[rs[i].bucket].keys.Some? ==> t[rs[i].bucket].keys.value == map[])
  }

  /** The entry e lies in d between two offsets. */
  ghost predicate EntryAt(d: seq<byte>, at: nat, end: nat, prefix: seq<byte>, e: (Key, WorkerId)) {
    && at + 2 <= |d|
    && var len: nat := Get16(d[at..]);
    && end == at + 2 + len + 2 <= |d|
    && e == (prefix + d[at + 2..at + 2 + len], Get16(d[at + 2 + len..]))
  }

  /** The bucket r lies in d between two offsets, after its length field. */
  ghost predicate BucketAt(d: seq<byte>, at: nat, end: nat, r: Received) {
    && at + 4 <= |d|
    && var len: nat := Get32(d[at..]);
    && end == at + 4 + len <= |d|
    && GetBucket(d[at + 4..at + 4 + len]) == Some(r)
  }

  ghost predicate EntriesAt(d: seq<byte>, offs: seq<nat>, prefix: seq<byte>, es: seq<(Key, WorkerId)>) {
    |offs| == |es| + 1 && forall i | 0 <= i < |es| :: EntryAt(d, offs[i], offs[i + 1], prefix, es[i])
  }

  ghost predicate BucketsAt(d: seq<byte>, offs: seq<nat>, rs: seq<Received>) {
    |offs| == |rs| + 1 && forall i | 0 <= i < |rs| :: BucketAt(d, offs[i], offs[i + 1], rs[i])
  }

  lemma EntriesStep(d: seq<byte>, at: nat, n: nat, prefix: seq<byte>, es: seq<(Key, WorkerId)>) returns (end: nat)
    requires at <= |d| && n > 0 && GetEntries(d[at..], n, prefix) == Some(es)
    ensures es != [] && EntryAt(d, at, end, prefix, es[0]) && GetEntries(d[end..], n - 1, prefix) == Some(es[1..])
  {
    var rest := d[at..];
    var len: nat := Get16(rest);
    end := at + 2 + len + 2;
    assert rest[2..2 + len] == d[at + 2..at + 2 + len];
    assert rest[2 + len..] == d[at + 2 + len..];
    assert rest[2 + len + 2..] == d[end..];
  }

  lemma {:induction false} EntriesLayout(d: seq<byte>, at: nat, n: nat, prefix: seq<byte>, es: seq<(Key, WorkerId)>)
    returns (offs: seq<nat>)
    requires at <= |d| && GetEntries(d[at..], n, prefix) == Some(es)
    ensures |es| == n && EntriesAt(d, offs, prefix, es) && offs[0] == at
    decreases n
  {
    if n == 0 {
      offs := [at];
    } else {
      var end := EntriesStep(d, at, n, prefix, es);
      var rest := EntriesLayout(d, end, n - 1, prefix, es[1..]);
      offs := [at] + rest;
      EntriesCons(d, at, rest, prefix, es);
    }
  }

  lemma EntriesCons(d: seq<byte>, at: nat, rest: seq<nat>, prefix: seq<byte>, es: seq<(Key, WorkerId)>)
    requires es != [] && EntriesAt(d, rest, prefix, es[1..]) && EntryAt(d, at, rest[0], prefix, es[0])
    ensures EntriesAt(d, [at] + rest, prefix, es)
  {
    var offs := [at] + rest;
    forall i | 0 <= i < |es| ensures EntryAt(d, offs[i], offs[i + 1], prefix, es[i]) {
      if i > 0 { assert EntryAt(d, rest[i - 1], rest[i], prefix, es[1..][i - 1]); }
    }
  }

  lemma MapOfNext(es: seq<(Key, WorkerId)>, i: nat)
    requires i < |es|
    ensures MapOf(es[..i + 1]) == MapOf(es[..i])[es[i].0 := es[i].1]
  {
    assert es[..i + 1][..i] == es[..i];
  }

  method ReadEntries(d: seq<byte>, n: nat, prefix: seq<byte>, ghost offs: seq<nat>, ghost es: seq<(Key, WorkerId)>)
    returns (keyMap: map<Key, WorkerId>)
    requires |es| == n && EntriesAt(d, offs, prefix, es) && offs[0] == 10
    ensures keyMap == MapOf(es)
  {
    keyMap := map[];
    var offset: nat := 10;
    for i := 0 to n
      invariant offset == offs[i] && keyMap == MapOf(es[..i])
    {
      assert EntryAt(d, offs[i], offs[i + 1], prefix, es[i]);
      MapOfNext(es, i);
      var len: nat := Get16(d[offset..]);
      offset := offset + 2;
      var key := prefix + d[offset..offset + len];
      offset := offset + len;
      keyMap := keyMap[key := Get16(d[offset..])];
      offset := offset + 2;
    }
    assert es[..n] == es;
  }

  /** Reads one bucket by offset. */
  method ReadBucket(d: seq<byte>) returns (r: Received)
    requires GetBucket(d).Some?
    ensures GetBucket(d) == Some(r)
  {
    ghost var es := GetEntries(d[10..], Get32(d[6..]), d[..6]).value;
    ghost var offs := EntriesLayout(d, 10, Get32(d[6..]), d[..6], es);
    var keyMap := ReadEntries(d, Get32(d[6..]), d[..6], offs, es);
    r := Received(Get32(d[2..]), keyMap);
  }

  lemma BucketsStep(d: seq<byte>, at: nat, n: nat, rs: seq<Received>) returns (end: nat)
    requires at <= |d| && n > 0 && GetBuckets(d[at..], n) == Some(rs)
    ensures rs != [] && BucketAt(d, at, end, rs[0]) && GetBuckets(d[end..], n - 1) == Some(rs[1..])
  {
    var rest := d[at..];
    var len: nat := Get32(rest);
    end := at + 4 + len;
    assert rest[4..4 + len] == d[at + 4..at + 4 + len];
    assert rest[4 + len..] == d[end..];
  }

  lemma {:induction false} BucketsLayout(d: seq<byte>, at: nat, n: nat, rs: seq<Received>) returns (offs: seq<nat>)
    requires at <= |d| && GetBuckets(d[at..], n) == Some(rs)
    ensures |rs| == n && BucketsAt(d, offs, rs) && offs[0] == at
    decreases n
  {
    if n == 0 {
      offs := [at];
    } else {
      var end := BucketsStep(d, at, n, rs);
      var rest := BucketsLayout(d, end, n - 1, rs[1..]);
      offs := [at] + rest;
      BucketsCons(d, at, rest, rs);
    }
  }

  lemma BucketsCons(d: seq<byte>, at: nat, rest: seq<nat>, rs: seq<Received>)
    requires rs != [] && BucketsAt(d, rest, rs[1..]) && BucketAt(d, at, rest[0], rs[0])
    ensures BucketsAt(d, [at] + rest, rs)
  {
    var offs := [at] + rest;
    forall i | 0 <= i < |rs| ensures BucketAt(d, offs[i], offs[i + 1], rs[i]) {
      if i > 0 { assert BucketAt(d, rest[i - 1], rest[i], rs[1..][i - 1]); }
    }
  }

  lemma InstalledNext(t: Table, rs: seq<Received>, i: nat, local: WorkerId)
    requires i < |rs| && rs[i].bucket < |t|
    ensures Installed(t, rs[..i + 1], local) ==
            Installed(t, rs[..i], local)[rs[i].bucket := Entry(local, Some(rs[i].owners))]
  {
    assert rs[..i + 1][..i] == rs[..i];
  }

  /** Reads the bucket at an offset. */
  method ReadBucketAt(d: seq<byte>, at: nat, ghost end: nat, ghost r0: Received) returns (next: nat, r: Received)
    requires BucketAt(d, at, end, r0)
    ensures next == end && r == r0
  {
    var len: nat := Get32(d[at..]);
    r := ReadBucket(d[at + 4..at + 4 + len]);
    next := at + 4 + len;
  }

  class KeyLookupTable {
    const local: WorkerId
    var buckets: Table

    constructor (local: WorkerId, buckets: Table)
      ensures this.local == local && this.buckets == buckets
    {
      this.local, this.buckets := local, buckets;
    }

    method InstallBuckets(d: seq<byte>, n: nat, ghost offs: seq<nat>, ghost rs: seq<Received>)
      requires |rs| == n && BucketsAt(d, offs, rs) && offs[0] == 4 && Installable(buckets, rs)
      modifies this
      ensures buckets == Installed(old(buckets), rs, local)
    {
      var offset: nat := 4;
      for i := 0 to n
        invariant offset == offs[i] && buckets == Installed(old(buckets), rs[..i], local)
      {
        assert BucketAt(d, offs[i], offs[i + 1], rs[i]);
        InstalledNext(old(buckets), rs, i, local);
        var r;
        offset, r := ReadBucketAt(d, offset, offs[i + 1], rs[i]);
        buckets := buckets[r.bucket := Entry(local, Some(r.owners))];
      }
      assert rs[..n] == rs;
    }

    /** Installs the key maps of a payload. */
    method DeserializeMigratingKeyMaps(d: seq<byte>)
      requires GetPayload(d).Some? && Installable(buckets, GetPayload(d).value)
      modifies this
      ensures buckets == Installed(old(buckets), GetPayload(d).value, local)
    {
      ghost var rs := GetPayload(d).value;
      ghost var offs := BucketsLayout(d, 4, Get32(d), rs);
      InstallBuckets(d, Get32(d), offs, rs);
    }

    /** Serializes the key maps of all buckets that get a new owner, one message
        per destination, and gives the buckets away. `orders` and `firsts` are the
        orders in which the maps happen to be iterated. */
    method SerializeMigratingKeyMaps(routing: seq<WorkerId>, orders: seq<seq<Key>>, firsts: seq<Key>, kind: seq<byte>,
                                     capacity: nat, ghost op: seq<byte>)
      returns (messages: map<WorkerId, seq<byte>>)
      requires Sendable(buckets, routing, local, orders, firsts, op) && |kind| == 2
      requires 10 <= capacity < 0x1_0000_0000
      requires forall d: WorkerId :: 10 + |PutBuckets(Sent(buckets, routing, local, orders, d, |buckets|))| <= capacity
      modifies this
      ensures buckets == GivenAway(old(buckets), routing, local, |routing|)
      ensures forall b | 0 <= b < |routing| :: GivenAt(old(buckets), routing, local, buckets, b)
      ensures forall d: WorkerId :: d in messages <==> Sent(old(buckets), routing, local, orders, d, |routing|) != []
      ensures forall d | d in messages ::
              IsMessage(messages[d], kind, Sent(old(buckets), routing, local, orders, d, |routing|))
    {
      ghost var t := buckets;
      var drafts := GiveAway(routing, orders);
      forall b | 0 <= b < |routing| ensures GivenAt(t, routing, local, buckets, b) {
        GivenAwayAt(t, routing, local, |routing|, b);
      }
      forall d | d in drafts ensures Writable(drafts[d], firsts, op) && 10 + |PutBuckets(drafts[d])| <= capacity {
        SentEncodable(t, routing, local, orders, firsts, op, d, |t|);
        assert DraftedTo(drafts, t, routing, local, orders, d, |t|);
      }
      messages := WriteMessages(drafts, firsts, kind, capacity, op);
      forall d: WorkerId ensures d in messages <==> Sent(t, routing, local, orders, d, |routing|) != [] {
        assert DraftedTo(drafts, t, routing, local, orders, d, |t|);
      }
      forall d | d in messages ensures IsMessage(messages[d], kind, Sent(t, routing, local, orders, d, |routing|)) {
        assert DraftedTo(drafts, t, routing, local, orders, d, |t|);
      }
    }

    /** Takes the key maps of the moved buckets out of the table. */
    method GiveAway(routing: seq<WorkerId>, orders: seq<seq<Key>>) returns (drafts: map<WorkerId, seq<BucketMap>>)
      requires |buckets| == |routing| == |orders| < 0x1_0000_0000 && MovedHaveMaps(buckets, routing, local)
      modifies this
      ensures buckets == GivenAway(old(buckets), routing, local, |routing|)
      ensures forall d: WorkerId :: DraftedTo(drafts, old(buckets), routing, local, orders, d, |routing|)
    {
      ghost var t := buckets;
      drafts := map[];
      for b := 0 to |buckets|
        invariant |buckets| == |t| && buckets == GivenAway(t, routing, local, b)
        invariant forall d: WorkerId :: DraftedTo(drafts, t, routing, local, orders, d, b)
      {
        GivenAwayAt(t, routing, local, b, b);
        ghost var before, next := drafts, b + 1;
        if buckets[b].owner == local && routing[b] != local {
          var d := routing[b];
          drafts := drafts[d := Draft(drafts, d) + [BucketMap(b, orders[b], buckets[b].keys.value)]];
          buckets := buckets[b := Entry(d, None)];
        }
        forall d: WorkerId ensures DraftedTo(drafts, t, routing, local, orders, d, next) {
          assert DraftedTo(before, t, routing, local, orders, d, b);
        }
      }
    }
  }

  ghost predicate MovedHaveMaps(t: Table, routing: seq<WorkerId>, local: WorkerId)
    requires |t| == |routing|
  {
    forall b | 0 <= b < |t| && t[b].owner == local && routing[b] != local :: t[b].keys.Some?
  }

  ghost predicate DraftedTo(drafts: map<WorkerId, seq<BucketMap>>, t: Table, routing: seq<WorkerId>, local: WorkerId,
                            orders: seq<seq<Key>>,
                            d: WorkerId, n: nat)
    requires n <= |t| == |routing| == |orders| < 0x1_0000_0000
  {
    Draft(drafts, d) == Sent(t, routing, local, orders, d, n) && (d in drafts ==> drafts[d] != [])
  }

  method WriteMessages(drafts: map<WorkerId, seq<BucketMap>>, firsts: seq<Key>, kind: seq<byte>, capacity: nat,
                       ghost op: seq<byte>)
    returns (messages: map<WorkerId, seq<byte>>)
    requires |kind| == 2 && capacity < 0x1_0000_0000
    requires forall d | d in drafts :: Writable(drafts[d], firsts, op) && 10 + |PutBuckets(drafts[d])| <= capacity
    ensures messages.Keys == drafts.Keys
    ensures forall d | d in messages :: IsMessage(messages[d], kind, drafts[d])
  {
    messages := map[];
    var left := drafts.Keys;
    while left != {}
      invariant left <= drafts.Keys && messages.Keys == drafts.Keys - left
      invariant forall d | d in messages :: IsMessage(messages[d], kind, drafts[d])
      decreases left
    {
      var d: WorkerId :| d in left;
      var message := WriteMessage(drafts[d], firsts, kind, capacity, op);
      messages := messages[d := message];
      left := left - {d};
    }
  }

  function Draft(drafts: map<WorkerId, seq<BucketMap>>, d: WorkerId): seq<BucketMap> {
    if d in drafts then drafts[d] else []
  }

  ghost predicate Writable(ms: seq<BucketMap>, firsts: seq<Key>, op: seq<byte>) {
    forall i | 0 <= i < |ms| :: WritableOne(ms[i], firsts, op)
  }

  ghost predicate WritableOne(m: BucketMap, firsts: seq<Key>, op: seq<byte>) {
    Encodable(m, op) && m.bucket < |firsts| && (m.order != [] ==> firsts[m.bucket] in m.owners)
  }

  /** One message, written through a buffer of the given capacity. */
  method WriteMessage(ms: seq<BucketMap>, firsts: seq<Key>, kind: seq<byte>, capacity: nat, ghost op: seq<byte>)
    returns (message: seq<byte>)
    requires Writable(ms, firsts, op) && |kind| == 2 && 10 + |PutBuckets(ms)| <= capacity < 0x1_0000_0000
    ensures IsMessage(message, kind, ms)
  {
    var w := new KeyMapWriter(capacity, kind);
    for i := 0 to |ms|
      invariant w.Valid() && fresh(w) && fresh(w.data) && w.kind == kind && w.data.Length == capacity
      invariant w.buckets == ms[..i]
    {
      PrefixWritten(ms, i);
      assert WritableOne(ms[i], firsts, op);
      w.AddBucket(ms[i], firsts[ms[i].bucket], op);
    }
    assert ms[..|ms|] == ms;
    message := w.Done();
  }

  lemma {:induction false} PrefixWritten(ms: seq<BucketMap>, i: nat)
    requires i < |ms|
    ensures ms[..i + 1] == ms[..i] + [ms[i]]
    ensures |PutBuckets(ms[..i])| + |PutBucket(ms[i])| == |PutBuckets(ms[..i + 1])| <= |PutBuckets(ms)|
    decreases |ms| - i
  {
    assert ms[..i + 1] == ms[..i] + [ms[i]];
    BucketsNext(ms[..i], ms[i]);
    if i + 1 < |ms| {
      PrefixWritten(ms, i + 1);
    } else {
      assert ms[..i + 1] == ms;
    }
  }

  // --------------------------------------------------------- what is sent

  predicate MovesTo(t: Table, routing: seq<WorkerId>, local: WorkerId, b: nat, d: WorkerId)
    requires b < |t| == |routing|
  {
    t[b].owner == local && routing[b] == d && d != local
  }

  /** The buckets for destination d among the first n, in order. */
  function Sent(t: Table, routing: seq<WorkerId>, local: WorkerId, orders: seq<seq<Key>>, d: WorkerId,
                n: nat): seq<BucketMap>
    requires n <= |t| == |routing| == |orders| < 0x1_0000_0000
  {
    if n == 0 then []
    else
      var ms := Sent(t, routing, local, orders, d, n - 1);
      if MovesTo(t, routing, local, n - 1, d) && t[n - 1].keys.Some? then
        ms + [BucketMap(n - 1, orders[n - 1], t[n - 1].keys.value)]
      else ms
  }

  /** The table after the first n buckets were looked at. */
  function GivenAway(t: Table, routing: seq<WorkerId>, local: WorkerId, n: nat): (t': Table)
    requires n <= |t| == |routing|
    ensures |t'| == |t|
  {
    if n == 0 then t
    else
      var t1 := GivenAway(t, routing, local, n - 1);
      if t[n - 1].owner == local && routing[n - 1] != local then t1[n - 1 := Entry(routing[n - 1], None)] else t1
  }

  ghost predicate Sendable(t: Table, routing: seq<WorkerId>, local: WorkerId, orders: seq<seq<Key>>, firsts: seq<Key>,
                           op: seq<byte>) {
    && |t| == |routing| == |orders| == |firsts| < 0x1_0000_0000
    && forall b | 0 <= b < |t| && t[b].owner == local && routing[b] != local ::
         t[b].keys.Some? && WritableOne(BucketMap(b, orders[b], t[b].keys.value), firsts, op)
  }

  ghost predicate IsMessage(message: seq<byte>, kind: seq<byte>, ms: seq<BucketMap>) {
    && 6 <= |message| < 0x1_0000_0000
    && message == kind + Put32(|message| - 6) + Put32(Low32(|ms|)) + PutBuckets(ms)
  }

  /** A local bucket with a new owner has that owner and no map afterwards, every
      other bucket its old entry. */
  ghost predicate GivenAt(t: Table, routing: seq<WorkerId>, local: WorkerId, t': Table, b: nat)
    requires b < |t| == |routing|
  {
    |t'| == |t| && t'[b] == if t[b].owner == local && routing[b] != local then Entry(routing[b], None) else t[b]
  }

  lemma {:induction false} GivenAwayAt(t: Table, routing: seq<WorkerId>, local: WorkerId, n: nat, b: nat)
    requires n <= |t| == |routing| && b < |t|
    ensures b < n ==> GivenAt(t, routing, local, GivenAway(t, routing, local, n), b)
    ensures n <= b ==> GivenAway(t, routing, local, n)[b] == t[b]
  {
    if n > 0 { GivenAwayAt(t, routing, local, n - 1, b); }
  }

  lemma {:induction false} SentEncodable(t: Table, routing: seq<WorkerId>, local: WorkerId, orders: seq<seq<Key>>,
                                         firsts: seq<Key>,
                                        op: seq<byte>, d: WorkerId, n: nat)
    requires Sendable(t, routing, local, orders, firsts, op) && n <= |t|
    ensures Writable(Sent(t, routing, local, orders, d, n), firsts, op)
  {
    if n > 0 {
      SentEncodable(t, routing, local, orders, firsts, op, d, n - 1);
      var init, ms := Sent(t, routing, local, orders, d, n - 1), Sent(t, routing, local, orders, d, n);
      if ms != init {
        var m := BucketMap(n - 1, orders[n - 1], t[n - 1].keys.value);
        assert ms == init + [m] && WritableOne(m, firsts, op);
      }
    }
  }

  /** The messages partition the buckets that change owner: bucket b is sent to d
      exactly if it was local and d is its new owner, once, with its own map. */
  lemma {:induction false} SentExactly(t: Table, routing: seq<WorkerId>, local: WorkerId, orders: seq<seq<Key>>,
                                       d: WorkerId, n: nat, b: nat)
    requires n <= |t| == |routing| == |orders| < 0x1_0000_0000
    requires forall b | 0 <= b < |t| && t[b].owner == local && routing[b] != local :: t[b].keys.Some?
    ensures var ms := Sent(t, routing, local, orders, d, n);
            && (forall i, j :: 0 <= i < j < |ms| ==> ms[i].bucket < ms[j].bucket)
            && (forall i | 0 <= i < |ms| :: ms[i].bucket < n && t[ms[i].bucket].keys == Some(ms[i].owners))
            && (HasBucket(ms, b) <==> b < n && MovesTo(t, routing, local, b, d))
  {
    if n > 0 {
      SentExactly(t, routing, local, orders, d, n - 1, b);
      var init, ms := Sent(t, routing, local, orders, d, n - 1), Sent(t, routing, local, orders, d, n);
      if MovesTo(t, routing, local, n - 1, d) {
        var m := BucketMap(n - 1, orders[n - 1], t[n - 1].keys.value);
        assert ms == init + [m];
        HasBucketNext(init, m, b);
      } else {
        assert ms == init;
      }
    }
  }

  ghost predicate HasBucket(ms: seq<BucketMap>, b: nat) {
    exists i :: 0 <= i < |ms| && ms[i].bucket == b
  }

  lemma HasBucketNext(ms: seq<BucketMap>, m: BucketMap, b: nat)
    ensures HasBucket(ms + [m], b) <==> HasBucket(ms, b) || m.bucket == b
  {
    var next := ms + [m];
    if i :| 0 <= i < |ms| && ms[i].bucket == b { assert next[i] == ms[i]; }
    assert next[|ms|] == m;
  }

  /** Sender and receiver agree: the receiver of a message gets exactly the maps of
      the buckets that moved to it. */
  lemma TransferRoundTrip(t: Table, routing: seq<WorkerId>, local: WorkerId, orders: seq<seq<Key>>, firsts: seq<Key>,
                          op: seq<byte>,
                          kind: seq<byte>, d: WorkerId, message: seq<byte>)
    requires Sendable(t, routing, local, orders, firsts, op) && |kind| == 2
    requires IsMessage(message, kind, Sent(t, routing, local, orders, d, |t|))
    ensures GetPayload(message[6..]) == Some(ReceivedOf(Sent(t, routing, local, orders, d, |t|)))
    ensures DistinctBuckets(ReceivedOf(Sent(t, routing, local, orders, d, |t|)))
  {
    var ms := Sent(t, routing, local, orders, d, |t|);
    SentEncodable(t, routing, local, orders, firsts, op, d, |t|);
    SentExactly(t, routing, local, orders, d, |t|, 0);
    SentCount(t, routing, local, orders, d, |t|);
    forall i | 0 <= i < |ms| ensures Encodable(ms[i], op) { assert WritableOne(ms[i], firsts, op); }
    MessageReads(message, kind, ms, op);
  }

  lemma MessageReads(message: seq<byte>, kind: seq<byte>, ms: seq<BucketMap>, op: seq<byte>)
    requires |kind| == 2 && IsMessage(message, kind, ms)
    requires |ms| < 0x1_0000_0000 && forall i | 0 <= i < |ms| :: Encodable(ms[i], op)
    ensures GetPayload(message[6..]) == Some(ReceivedOf(ms))
  {
    DropHeader(kind, Put32(|message| - 6), Put32(|ms|), PutBuckets(ms));
    RoundTrip(ms, op);
  }

  lemma DropHeader(kind: seq<byte>, len: seq<byte>, num: seq<byte>, buckets: seq<byte>)
    requires |kind| == 2 && |len| == 4
    ensures (kind + len + num + buckets)[6..] == num + buckets
  {
  }

  lemma {:induction false} SentCount(t: Table, routing: seq<WorkerId>, local: WorkerId, orders: seq<seq<Key>>,
                                     d: WorkerId, n: nat)
    requires n <= |t| == |routing| == |orders| < 0x1_0000_0000
    ensures |Sent(t, routing, local, orders, d, n)| <= n
  {
    if n > 0 { SentCount(t, routing, local, orders, d, n - 1); }
  }

  // -------------------------------------------- steps of the distributed store

  /** t is the lookup table of worker w. */
  ghost predicate TableOf(c: Config, m: Maps, w: WorkerId, t: Table) {
    |t| == c.numBuckets && forall b: Bucket | b < |t| :: Lookup(m.table, (w, b)) == Some(t[b])
  }

  /** What serializing does to the table is what a departure does to it. */
  lemma DepartRefines(c: Config, m: Maps, w: WorkerId, routing: seq<WorkerId>, t: Table)
    requires TableOf(c, m, w, t) && |t| == |routing|
    ensures TableOf(c, DepartMaps(c, m, w, routing), w, GivenAway(t, routing, w, |t|))
  {
    var m' := DepartMaps(c, m, w, routing);
    forall b: Bucket | b < |t| ensures Lookup(m'.table, (w, b)) == Some(GivenAway(t, routing, w, |t|)[b]) {
      LeavesIff(c, m, w, routing, t, b);
      GivenAwayAt(t, routing, w, |t|, b);
    }
  }

  lemma LeavesIff(c: Config, m: Maps, w: WorkerId, routing: seq<WorkerId>, t: Table, b: Bucket)
    requires TableOf(c, m, w, t) && |t| == |routing| && b < |t|
    ensures b in Leaving(c, m, w, routing) <==> t[b].owner == w && routing[b] != w
    ensures (w, b) in m.table && m.table[(w, b)] == t[b]
  {
    assert Lookup(m.table, (w, b)) == Some(t[b]);
  }

  /** The message to d has exactly the key maps that are then on their way to d. */
  lemma MessageRefines(c: Config, m: Maps, w: WorkerId, routing: seq<WorkerId>, t: Table, orders: seq<seq<Key>>,
                       d: WorkerId, b: Bucket)
    requires TableOf(c, m, w, t) && |t| == |routing| == |orders| < 0x1_0000_0000 && MovedHaveMaps(t, routing, w)
    ensures var m' := DepartMaps(c, m, w, routing);
            var ms := Sent(t, routing, w, orders, d, |t|);
            && (HasBucket(ms, b) <==> b in Leaving(c, m, w, routing) && routing[b] == d)
            && (HasBucket(ms, b) ==> Lookup(m'.home, b) == Some(Flying(w, d)))
            && (forall i | 0 <= i < |ms| && ms[i].bucket == b :: Lookup(m'.flight, b) == Some(ms[i].owners))
  {
    SentExactly(t, routing, w, orders, d, |t|, b);
    if b < |t| { LeavesIff(c, m, w, routing, t, b); }
    var ms := Sent(t, routing, w, orders, d, |t|);
    forall i | 0 <= i < |ms| && ms[i].bucket == b
      ensures Lookup(DepartMaps(c, m, w, routing).flight, b) == Some(ms[i].owners)
    {
      assert HasBucket(ms, b);
      assert MapAt(m, w, b) == ms[i].owners;
    }
  }

  function BucketsOf(rs: seq<Received>): set<Bucket> {
    set i | 0 <= i < |rs| :: rs[i].bucket
  }

  /** What installing received key maps does to the table is what an arrival does. */
  lemma InstallRefines(c: Config, m: Maps, w: WorkerId, src: WorkerId, t: Table, rs: seq<Received>)
    requires TableOf(c, m, w, t) && DistinctBuckets(rs) && CanInstall(m, w, src, BucketsOf(rs))
    requires forall i | 0 <= i < |rs| :: Lookup(m.flight, rs[i].bucket) == Some(rs[i].owners)
    ensures TableOf(c, InstallMaps(m, w, src, BucketsOf(rs)), w, Installed(t, rs, w))
  {
    var m' := InstallMaps(m, w, src, BucketsOf(rs));
    forall b: Bucket | b < |t| ensures Lookup(m'.table, (w, b)) == Some(Installed(t, rs, w)[b]) {
      assert Lookup(m.table, (w, b)) == Some(t[b]);
      InstalledAt(t, rs, w, b);
      if b in BucketsOf(rs) {
        var i :| 0 <= i < |rs| && rs[i].bucket == b;
        assert Installed(t, rs, w)[b] == Entry(w, Some(rs[i].owners));
      }
    }
  }

  /** The tables of other workers stay. */
  lemma OthersStay(c: Config, m: Maps, w: WorkerId, src: WorkerId, routing: seq<WorkerId>, buckets: set<Bucket>,
                   v: WorkerId, t: Table)
    requires TableOf(c, m, v, t) && v != w
    ensures TableOf(c, DepartMaps(c, m, w, routing), v, t)
    ensures CanInstall(m, w, src, buckets) ==> TableOf(c, InstallMaps(m, w, src, buckets), v, t)
  {
    forall b: Bucket | b < |t| ensures Lookup(DepartMaps(c, m, w, routing).table, (v, b)) == Some(t[b]) {
      assert Lookup(m.table, (v, b)) == Some(t[b]);
    }
    if CanInstall(m, w, src, buckets) {
      forall b: Bucket | b < |t| ensures Lookup(InstallMaps(m, w, src, buckets).table, (v, b)) == Some(t[b]) {
        assert Lookup(m.table, (v, b)) == Some(t[b]);
      }
    }
  }

  /** The receiver may install what it decodes. */
  lemma MessageInstalls(c: Config, m: Maps, w: WorkerId, d: WorkerId, routing: seq<WorkerId>, t: Table, td: Table,
                        orders: seq<seq<Key>>)
    requires TableOf(c, m, w, t) && TableOf(c, m, d, td) && w != d
    requires |t| == |routing| == |orders| < 0x1_0000_0000 && MovedHaveMaps(t, routing, w)
    requires forall b: Bucket | b in Leaving(c, m, w, routing) && routing[b] == d :: MapAt(m, d, b) == map[]
    ensures var rs := ReceivedOf(Sent(t, routing, w, orders, d, |t|));
            && CanInstall(DepartMaps(c, m, w, routing), d, w, BucketsOf(rs)) && DistinctBuckets(rs)
            && forall i | 0 <= i < |rs| ::
                 Lookup(DepartMaps(c, m, w, routing).flight, rs[i].bucket) == Some(rs[i].owners)
  {
    var m' := DepartMaps(c, m, w, routing);
    var ms := Sent(t, routing, w, orders, d, |t|);
    var rs := ReceivedOf(ms);
    SentExactly(t, routing, w, orders, d, |t|, 0);
    forall i | 0 <= i < |rs|
      ensures Lookup(m'.home, rs[i].bucket) == Some(Flying(w, d))
      ensures Lookup(m'.flight, rs[i].bucket) == Some(rs[i].owners)
      ensures (d, rs[i].bucket) in m'.table && MapAt(m', d, rs[i].bucket) == map[]
    {
      ArrivesAt(c, m, w, d, routing, t, td, orders, i);
    }
  }

  lemma ArrivesAt(c: Config, m: Maps, w: WorkerId, d: WorkerId, routing: seq<WorkerId>, t: Table, td: Table,
                  orders: seq<seq<Key>>, i: nat)
    requires TableOf(c, m, w, t) && TableOf(c, m, d, td) && w != d
    requires |t| == |routing| == |orders| < 0x1_0000_0000 && MovedHaveMaps(t, routing, w)
    requires forall b: Bucket | b in Leaving(c, m, w, routing) && routing[b] == d :: MapAt(m, d, b) == map[]
    requires i < |Sent(t, routing, w, orders, d, |t|)|
    ensures var m', x := DepartMaps(c, m, w, routing), Sent(t, routing, w, orders, d, |t|)[i];
            && Lookup(m'.home, x.bucket) == Some(Flying(w, d)) && Lookup(m'.flight, x.bucket) == Some(x.owners)
            && (d, x.bucket) in m'.table && MapAt(m', d, x.bucket) == map[]
  {
    var b: Bucket := Sent(t, routing, w, orders, d, |t|)[i].bucket;
    assert HasBucket(Sent(t, routing, w, orders, d, |t|), b);
    MessageRefines(c, m, w, routing, t, orders, d, b);
    assert Lookup(m.table, (d, b)) == Some(td[b]);
  }

  /** The whole transfer: after the sender has serialized its message to d and d has
      installed what it decodes from it, both tables are those of the distributed
      store after the departure and the arrival of exactly the buckets that move. */
  lemma TransferRefines(c: Config, m: Maps, w: WorkerId, d: WorkerId, routing: seq<WorkerId>, t: Table, td: Table,
                        orders: seq<seq<Key>>)
    requires TableOf(c, m, w, t) && TableOf(c, m, d, td) && w != d
    requires |t| == |routing| == |orders| < 0x1_0000_0000 && MovedHaveMaps(t, routing, w)
    requires forall b: Bucket | b in Leaving(c, m, w, routing) && routing[b] == d :: MapAt(m, d, b) == map[]
    ensures var m' := DepartMaps(c, m, w, routing);
            var rs := ReceivedOf(Sent(t, routing, w, orders, d, |t|));
            && CanInstall(m', d, w, BucketsOf(rs))
            && var m'' := InstallMaps(m', d, w, BucketsOf(rs));
            TableOf(c, m'', w, GivenAway(t, routing, w, |t|)) && TableOf(c, m'', d, Installed(td, rs, d))
    ensures forall b: Bucket :: b in BucketsOf(ReceivedOf(Sent(t, routing, w, orders, d, |t|))) <==>
              b in Leaving(c, m, w, routing) && routing[b] == d
  {
    var m' := DepartMaps(c, m, w, routing);
    var ms := Sent(t, routing, w, orders, d, |t|);
    var rs := ReceivedOf(ms);
    DepartRefines(c, m, w, routing, t);
    MessageInstalls(c, m, w, d, routing, t, td, orders);
    OthersStay(c, m, w, d, routing, {}, d, td);
    InstallRefines(c, m', d, w, td, rs);
    OthersStay(c, m', d, w, routing, BucketsOf(rs), w, GivenAway(t, routing, w, |t|));
    forall b: Bucket ensures b in BucketsOf(rs) <==> b in Leaving(c, m, w, routing) && routing[b] == d {
      MessageRefines(c, m, w, routing, t, orders, d, b);
      assert b in BucketsOf(rs) <==> HasBucket(ms, b) by { InMessage(ms, b); }
    }
  }

  lemma InMessage(ms: seq<BucketMap>, b: Bucket)
    ensures b in BucketsOf(ReceivedOf(ms)) <==> HasBucket(ms, b)
  {
    if HasBucket(ms, b) {
      var i :| 0 <= i < |ms| && ms[i].bucket == b;
      assert ReceivedOf(ms)[i].bucket == b;
    }
  }
}

/**
 The byte format of migrating key maps: what is written for a list of buckets in
 a given order of keys, what is read back, and the round trip.
 */
module KeyMapFormat {
  import opened Types

  // ------------------------------------------------------------ big endian

  /** The low `width` bytes of n, most significant first. */
  function Digits(n: nat, width: nat): (s: seq<byte>)
    ensures |s| == width
  {
    if width == 0 then [] else Digits(n / 0x100, width - 1) + [n % 0x100]
  }

  function Number(s: seq<byte>): nat {
    if s == [] then 0 else Number(s[..|s| - 1]) * 0x100 + s[|s| - 1]
  }

  function Power(width: nat): nat {
    if width == 0 then 1 else Power(width - 1) * 0x100
  }

  lemma {:induction false} DigitsNumber(n: nat, width: nat)
    requires n < Power(width)
    ensures Number(Digits(n, width)) == n
  {
    if width > 0 {
      assert n / 0x100 < Power(width - 1);
      DigitsNumber(n / 0x100, width - 1);
      var s := Digits(n, width);
      assert s[..|s| - 1] == Digits(n / 0x100, width - 1);
    }
  }

  lemma {:induction false} NumberBound(s: seq<byte>)
    ensures Number(s) < Power(|s|)
  {
    if s != [] {
      NumberBound(s[..|s| - 1]);
    }
  }

  lemma Powers()
    ensures Power(2) == 0x1_0000 && Power(4) == 0x1_0000_0000
  {
    assert Power(1) == 0x100;
    assert Power(3) == 0x100_0000;
  }

  function Put16(n: uint16): (s: seq<byte>)
    ensures |s| == 2
  {
    Digits(n, 2)
  }

  function Get16(s: seq<byte>): uint16
    requires |s| >= 2
  {
    NumberBound(s[..2]);
    Powers();
    Number(s[..2])
  }

  function Put32(n: uint32): (s: seq<byte>)
    ensures |s| == 4
  {
    Digits(n, 4)
  }

  function Get32(s: seq<byte>): uint32
    requires |s| >= 4
  {
    NumberBound(s[..4]);
    Powers();
    Number(s[..4])
  }

  /** Conversions to an unsigned integer keep the low bits. */
  function Low16(n: nat): uint16 {
    if n < 0x1_0000 then n else n % 0x1_0000
  }

  function Low32(n: nat): uint32 {
    if n < 0x1_0000_0000 then n else n % 0x1_0000_0000
  }

  lemma PutGet(n: uint16, m: uint32, tail: seq<byte>)
    ensures Get16(Put16(n) + tail) == n && Get32(Put32(m) + tail) == m
  {
    Powers();
    DigitsNumber(n, 2);
    DigitsNumber(m, 4);
    assert (Put16(n) + tail)[..2] == Put16(n) && (Put32(m) + tail)[..4] == Put32(m);
  }

  // ------------------------------------------------------------------ keys

  /** Operator, bucket and state in front of the user's key. */
  function EncodeKey(op: uint16, bucket: uint32, state: uint16, user: seq<byte>): Key {
    Put16(op) + Put32(bucket) + Put16(state) + user
  }

  /** The part of a key that all keys of an operator's bucket share. */
  function Prefix(op: seq<byte>, bucket: uint32): seq<byte> {
    op + Put32(bucket)
  }

  predicate HasPrefix(k: Key, op: seq<byte>, bucket: uint32) {
    |k| >= 6 && |op| == 2 && k[..6] == Prefix(op, bucket)
  }

  /** k is a key of the operator's bucket as the state client encodes it. */
  ghost predicate IsEncoded(k: Key, op: uint16, bucket: uint32) {
    exists state: uint16, user: seq<byte> :: k == EncodeKey(op, bucket, state, user)
  }

  lemma EncodedKeyHasPrefix(op: uint16, bucket: uint32, state: uint16, user: seq<byte>)
    ensures HasPrefix(EncodeKey(op, bucket, state, user), Put16(op), bucket)
  {
    var k := EncodeKey(op, bucket, state, user);
    assert k[..6] == Put16(op) + Put32(bucket);
  }

  /** Different keys of the user, states, buckets or operators have different keys
      in the backend. */
  lemma EncodeKeyInjective(op: uint16, bucket: uint32, state: uint16, user: seq<byte>,
                           op': uint16, bucket': uint32, state': uint16, user': seq<byte>)
    requires EncodeKey(op, bucket, state, user) == EncodeKey(op', bucket', state', user')
    ensures op == op' && bucket == bucket' && state == state' && user == user'
  {
    KeyParts(op, bucket, state, user);
    KeyParts(op', bucket', state', user');
  }

  /** The parts of a key can be read off it. */
  lemma KeyParts(op: uint16, bucket: uint32, state: uint16, user: seq<byte>)
    ensures var k := EncodeKey(op, bucket, state, user);
            && |k| >= 8 && k[8..] == user
            && Get16(k) == op && Get32(k[2..]) == bucket && Get16(k[6..]) == state
  {
    var k := EncodeKey(op, bucket, state, user);
    assert k == Put16(op) + (Put32(bucket) + Put16(state) + user);
    assert k[2..] == Put32(bucket) + (Put16(state) + user);
    assert k[6..] == Put16(state) + user;
    PutGet(op, bucket, Put32(bucket) + Put16(state) + user);
    PutGet(op, bucket, Put16(state) + user);
    PutGet(state, bucket, user);
  }

  // ---------------------------------------------------------------- format

  /** One bucket of a message: its keys in the order they are written. */
  datatype BucketMap = BucketMap(bucket: uint32, order: seq<Key>, owners: map<Key, WorkerId>)

  ghost predicate InOrder(order: seq<Key>, owners: map<Key, WorkerId>) {
    && (forall i, j :: 0 <= i < j < |order| ==> order[i] != order[j])
    && (forall k :: k in order <==> k in owners)
  }

  /** The keys carry the prefix of the operator and the bucket, and fit their
      length field. */
  ghost predicate Encodable(m: BucketMap, op: seq<byte>) {
    && |op| == 2
    && InOrder(m.order, m.owners) && |m.order| < 0x1_0000_0000
    && (forall k | k in m.owners :: HasPrefix(k, op, m.bucket) && |k| - 6 < 0x1_0000)
    && |Body(m)| < 0x1_0000_0000
  }

  /** Only the low 16 bits of the length are written. */
  function PutEntry(k: Key, owner: WorkerId): seq<byte> {
    if |k| < 6 then [] else Put16(Low16(|k| - 6)) + k[6..] + Put16(owner)
  }

  function PutListed(k: Key, owners: map<Key, WorkerId>): seq<byte> {
    if k in owners then PutEntry(k, owners[k]) else []
  }

  function Concat(chunks: seq<seq<byte>>): seq<byte> {
    if chunks == [] then [] else Concat(chunks[..|chunks| - 1]) + chunks[|chunks| - 1]
  }

  function EntryChunks(order: seq<Key>, owners: map<Key, WorkerId>): seq<seq<byte>> {
    seq(|order|, i requires 0 <= i < |order| => PutListed(order[i], owners))
  }

  function PutEntries(order: seq<Key>, owners: map<Key, WorkerId>): seq<byte> {
    Concat(EntryChunks(order, owners))
  }

  /** The operator field of an empty bucket is not used. */
  function OperatorOf(m: BucketMap): seq<byte> {
    if m.order == [] || |m.order[0]| < 2 then [0, 0] else m.order[0][..2]
  }

  function Body(m: BucketMap): seq<byte> {
    OperatorOf(m) + Put32(m.bucket) + Put32(Low32(|m.order|)) + PutEntries(m.order, m.owners)
  }

  function PutBucket(m: BucketMap): seq<byte> {
    Put32(Low32(|Body(m)|)) + Body(m)
  }

  function BucketChunks(ms: seq<BucketMap>): seq<seq<byte>> {
    seq(|ms|, i requires 0 <= i < |ms| => PutBucket(ms[i]))
  }

  function PutBuckets(ms: seq<BucketMap>): seq<byte> {
    Concat(BucketChunks(ms))
  }

  lemma ConcatAppend(chunks: seq<seq<byte>>, c: seq<byte>)
    ensures Concat(chunks + [c]) == Concat(chunks) + c
  {
    assert (chunks + [c])[..|chunks|] == chunks;
  }

  lemma {:induction false} ConcatFront(chunks: seq<seq<byte>>)
    requires chunks != []
    ensures Concat(chunks) == chunks[0] + Concat(chunks[1..])
  {
    var n := |chunks| - 1;
    if n == 0 {
      assert chunks[..n] == [] && chunks[1..] == [];
    } else {
      var init, rest := chunks[..n], chunks[1..];
      ConcatFront(init);
      assert init[1..] == rest[..|rest| - 1] && rest[|rest| - 1] == chunks[n] && init[0] == chunks[0];
      Shift(chunks[0], Concat(init[1..]), chunks[n]);
    }
  }

  lemma Shift(a: seq<byte>, b: seq<byte>, c: seq<byte>)
    ensures a + b + c == a + (b + c)
  {
  }

  // ---------------------------------------------------------------- reader

  /** The entries at the front of d, each with the given prefix put back. */
  function GetEntries(d: seq<byte>, n: nat, prefix: seq<byte>): Option<seq<(Key, WorkerId)>> {
    if n == 0 then Some([])
    else if |d| < 2 || |d| < 2 + Get16(d) + 2 then None
    else
      var len := Get16(d);
      match GetEntries(d[2 + len + 2..], n - 1, prefix)
      case None => None
      case Some(rest) => Some([(prefix + d[2..2 + len], Get16(d[2 + len..]))] + rest)
  }

  function MapOf(entries: seq<(Key, WorkerId)>): map<Key, WorkerId> {
    if entries == [] then map[]
    else MapOf(entries[..|entries| - 1])[entries[|entries| - 1].0 := entries[|entries| - 1].1]
  }

  datatype Received = Received(bucket: uint32, owners: map<Key, WorkerId>)

  function GetBucket(d: seq<byte>): Option<Received> {
    if |d| < 10 then None
    else
      match GetEntries(d[10..], Get32(d[6..]), d[..6])
      case None => None
      case Some(entries) => Some(Received(Get32(d[2..]), MapOf(entries)))
  }

  function GetBuckets(d: seq<byte>, n: nat): Option<seq<Received>> {
    if n == 0 then Some([])
    else if |d| < 4 || |d| < 4 + Get32(d) then None
    else
      var len := Get32(d);
      match (GetBucket(d[4..4 + len]), GetBuckets(d[4 + len..], n - 1))
      case (Some(b), Some(rest)) => Some([b] + rest)
      case _ => None
  }

  /** The payload of a message starts with the number of buckets. */
  function GetPayload(d: seq<byte>): Option<seq<Received>> {
    if |d| < 4 then None else GetBuckets(d[4..], Get32(d))
  }

  // ------------------------------------------------------------ round trip

  function Listing(order: seq<Key>, owners: map<Key, WorkerId>): seq<(Key, WorkerId)>
    requires forall k | k in order :: k in owners
  {
    seq(|order|, i requires 0 <= i < |order| => assert order[i] in order; (order[i], owners[order[i]]))
  }

  /** Whatever follows it, the bytes c are read as the entry e. */
  ghost predicate ReadsEntry(c: seq<byte>, prefix: seq<byte>, e: (Key, WorkerId)) {
    forall tail: seq<byte>, n: nat | n > 0 :: NextEntry(c, tail, n, prefix, e)
  }

  ghost predicate NextEntry(c: seq<byte>, tail: seq<byte>, n: nat, prefix: seq<byte>, e: (Key, WorkerId))
    requires n > 0
  {
    GetEntries(c + tail, n, prefix) ==
      match GetEntries(tail, n - 1, prefix)
      case None => None
      case Some(rest) => Some([e] + rest)
  }

  lemma EntriesReadOn(c: seq<byte>, tail: seq<byte>, prefix: seq<byte>, es: seq<(Key, WorkerId)>, d: seq<byte>)
    requires es != [] && ReadsEntry(c, prefix, es[0]) && GetEntries(tail, |es| - 1, prefix) == Some(es[1..])
    requires d == c + tail
    ensures GetEntries(d, |es|, prefix) == Some(es)
  {
    assert NextEntry(c, tail, |es|, prefix, es[0]);
    assert [es[0]] + es[1..] == es;
  }

  lemma {:induction false} EntriesReadBack(chunks: seq<seq<byte>>, prefix: seq<byte>, es: seq<(Key, WorkerId)>,
                                           tail: seq<byte>)
    requires |chunks| == |es| && forall i | 0 <= i < |es| :: ReadsEntry(chunks[i], prefix, es[i])
    ensures GetEntries(Concat(chunks) + tail, |es|, prefix) == Some(es)
    decreases |es|
  {
    if es != [] {
      EntriesReadBack(chunks[1..], prefix, es[1..], tail);
      assert ReadsEntry(chunks[0], prefix, es[0]);
      ConcatFront(chunks);
      Shift(chunks[0], Concat(chunks[1..]), tail);
      EntriesReadOn(chunks[0], Concat(chunks[1..]) + tail, prefix, es, Concat(chunks) + tail);
    }
  }

  lemma EntriesRoundTrip(order: seq<Key>, owners: map<Key, WorkerId>, op: seq<byte>, bucket: uint32)
    requires forall k | k in order :: k in owners && HasPrefix(k, op, bucket) && |k| - 6 < 0x1_0000
    ensures GetEntries(PutEntries(order, owners), |order|, Prefix(op, bucket)) == Some(Listing(order, owners))
  {
    var chunks, es, prefix := EntryChunks(order, owners), Listing(order, owners), Prefix(op, bucket);
    forall i | 0 <= i < |es| ensures ReadsEntry(chunks[i], prefix, es[i]) {
      assert order[i] in order;
      forall tail: seq<byte>, n: nat | n > 0 ensures NextEntry(chunks[i], tail, n, prefix, es[i]) {
        EntryRoundTrip(order[i], owners[order[i]], op, bucket, tail, n);
      }
    }
    EntriesReadBack(chunks, prefix, es, []);
    assert Concat(chunks) + [] == Concat(chunks);
  }

  lemma EntryRoundTrip(k: Key, owner: WorkerId, op: seq<byte>, bucket: uint32, tail: seq<byte>, n: nat)
    requires HasPrefix(k, op, bucket) && |k| - 6 < 0x1_0000 && n > 0
    ensures NextEntry(PutEntry(k, owner), tail, n, Prefix(op, bucket), (k, owner))
  {
    Joined(k, op, bucket);
    EntryBytes(k, owner);
    EntriesRead(Put16(|k| - 6), k[6..], Put16(owner), tail, n, Prefix(op, bucket));
  }

  lemma EntryBytes(k: Key, owner: WorkerId)
    requires 6 <= |k| < 6 + 0x1_0000
    ensures PutEntry(k, owner) == Put16(|k| - 6) + k[6..] + Put16(owner)
    ensures Number(Put16(|k| - 6)) == |k| - 6 && Get16(Put16(owner)) == owner
  {
    assert Put16(owner)[..2] == Put16(owner);
    Powers();
    DigitsNumber(|k| - 6, 2);
    DigitsNumber(owner, 2);
  }

  lemma EntriesRead(len: seq<byte>, body: seq<byte>, owner: seq<byte>, tail: seq<byte>, n: nat, prefix: seq<byte>)
    requires |len| == |owner| == 2 && Number(len) == |body| && n > 0
    ensures GetEntries(len + body + owner + tail, n, prefix) ==
              match GetEntries(tail, n - 1, prefix)
              case None => None
              case Some(rest) => Some([(prefix + body, Get16(owner))] + rest)
  {
    EntryFields(len, body, owner, tail);
    var d := len + body + owner + tail;
    assert d[..2] == len && d[2 + |body|..][..2] == owner == owner[..2];
  }

  lemma EntryFields(len: seq<byte>, body: seq<byte>, owner: seq<byte>, tail: seq<byte>)
    requires |len| == |owner| == 2
    ensures var d := len + body + owner + tail;
            && d == len + (body + owner + tail) && d[2..2 + |body|] == body
            && d[2 + |body|..] == owner + tail && d[2 + |body| + 2..] == tail
  {
  }

  lemma Joined(k: Key, op: seq<byte>, bucket: uint32)
    requires HasPrefix(k, op, bucket)
    ensures Prefix(op, bucket) + k[6..] == k
  {
    assert k[..6] + k[6..] == k;
  }

  lemma {:induction false} MapOfListing(order: seq<Key>, owners: map<Key, WorkerId>)
    requires forall k | k in order :: k in owners
    ensures forall k :: k in MapOf(Listing(order, owners)) <==> k in order
    ensures forall k | k in order :: MapOf(Listing(order, owners))[k] == owners[k]
  {
    if order != [] {
      var n := |order| - 1;
      var init := order[..n];
      assert order[n] in order && forall k | k in init :: k in order;
      MapOfListing(init, owners);
      assert Listing(order, owners)[..n] == Listing(init, owners);
      assert order == init + [order[n]];
    }
  }

  /** Fields of a bucket. */
  lemma BodyFields(op: seq<byte>, bucket: uint32, n: uint32, entries: seq<byte>)
    requires |op| == 2
    ensures var d := op + Put32(bucket) + Put32(n) + entries;
            && |d| >= 10 && Get32(d[2..]) == bucket && Get32(d[6..]) == n
            && d[10..] == entries && d[..6] == op + Put32(bucket)
  {
    var d := op + Put32(bucket) + Put32(n) + entries;
    assert d[2..] == Put32(bucket) + (Put32(n) + entries);
    PutGet(0, bucket, Put32(n) + entries);
    assert d[6..] == Put32(n) + entries;
    PutGet(0, n, entries);
  }

  /** A bucket is read back exactly, whatever order its keys were written in. */
  lemma BucketRoundTrip(m: BucketMap, op: seq<byte>)
    requires Encodable(m, op)
    ensures GetBucket(Body(m)) == Some(Received(m.bucket, m.owners))
  {
    OperatorPrefix(m, op);
    BodyIs(m);
    BodyReads(OperatorOf(m), m.bucket, |m.order|, PutEntries(m.order, m.owners));
    EntriesRoundTrip(m.order, m.owners, OperatorOf(m), m.bucket);
    MapOfListing(m.order, m.owners);
    assert MapOf(Listing(m.order, m.owners)) == m.owners;
  }

  lemma BodyIs(m: BucketMap)
    requires |m.order| < 0x1_0000_0000
    ensures Body(m) == OperatorOf(m) + Put32(m.bucket) + Put32(|m.order|) + PutEntries(m.order, m.owners)
    ensures |Body(m)| < 0x1_0000_0000 ==> PutBucket(m) == Put32(|Body(m)|) + Body(m)
  {
  }

  lemma BodyReads(op: seq<byte>, bucket: uint32, n: uint32, entries: seq<byte>)
    requires |op| == 2
    ensures GetBucket(op + Put32(bucket) + Put32(n) + entries) ==
              match GetEntries(entries, n, Prefix(op, bucket))
              case None => None
              case Some(es) => Some(Received(bucket, MapOf(es)))
  {
    BodyFields(op, bucket, n, entries);
  }

  /** The operator field is that of every key. */
  lemma OperatorPrefix(m: BucketMap, op: seq<byte>)
    requires Encodable(m, op)
    ensures |OperatorOf(m)| == 2 && forall k | k in m.order :: HasPrefix(k, OperatorOf(m), m.bucket)
  {
    if m.order != [] {
      var k := m.order[0];
      assert k in m.order;
      assert k[..2] == k[..6][..2] == op;
    }
  }

  function ReceivedOf(ms: seq<BucketMap>): seq<Received> {
    seq(|ms|, i requires 0 <= i < |ms| => Received(ms[i].bucket, ms[i].owners))
  }

  lemma NextBucket(body: seq<byte>, tail: seq<byte>)
    requires |body| < 0x1_0000_0000
    ensures var d := Put32(|body|) + body + tail;
            |d| >= 4 + |body| && Get32(d) == |body| && d[4..4 + |body|] == body && d[4 + |body|..] == tail
  {
    assert Put32(|body|) + body + tail == Put32(|body|) + (body + tail);
    PutGet(0, |body|, body + tail);
  }

  lemma BucketsRead(body: seq<byte>, tail: seq<byte>, n: nat)
    requires |body| < 0x1_0000_0000 && n > 0
    ensures GetBuckets(Put32(|body|) + body + tail, n) ==
              match (GetBucket(body), GetBuckets(tail, n - 1))
              case (Some(b), Some(rest)) => Some([b] + rest)
              case _ => None
  {
    NextBucket(body, tail);
  }

  /** Whatever follows them, the bytes c are read as the bucket r. */
  ghost predicate ReadsBucket(c: seq<byte>, r: Received) {
    forall tail: seq<byte>, n: nat | n > 0 :: ReadNext(c, tail, n, r)
  }

  ghost predicate ReadNext(c: seq<byte>, tail: seq<byte>, n: nat, r: Received)
    requires n > 0
  {
    GetBuckets(c + tail, n) ==
      match GetBuckets(tail, n - 1)
      case Some(rest) => Some([r] + rest)
      case None => None
  }

  lemma ReadsOn(c: seq<byte>, tail: seq<byte>, rs: seq<Received>, d: seq<byte>)
    requires rs != [] && ReadsBucket(c, rs[0]) && GetBuckets(tail, |rs| - 1) == Some(rs[1..]) && d == c + tail
    ensures GetBuckets(d, |rs|) == Some(rs)
  {
    assert ReadNext(c, tail, |rs|, rs[0]);
    assert [rs[0]] + rs[1..] == rs;
  }

  lemma {:induction false} BucketsReadBack(chunks: seq<seq<byte>>, rs: seq<Received>, tail: seq<byte>)
    requires |chunks| == |rs| && forall i | 0 <= i < |rs| :: ReadsBucket(chunks[i], rs[i])
    ensures GetBuckets(Concat(chunks) + tail, |rs|) == Some(rs)
    decreases |rs|
  {
    if rs != [] {
      BucketsReadBack(chunks[1..], rs[1..], tail);
      assert ReadsBucket(chunks[0], rs[0]);
      ConcatFront(chunks);
      Shift(chunks[0], Concat(chunks[1..]), tail);
      ReadsOn(chunks[0], Concat(chunks[1..]) + tail, rs, Concat(chunks) + tail);
    }
  }

  lemma HeadRoundTrip(m: BucketMap, op: seq<byte>, tail: seq<byte>, n: nat)
    requires Encodable(m, op) && n > 0
    ensures ReadNext(PutBucket(m), tail, n, Received(m.bucket, m.owners))
  {
    BucketRoundTrip(m, op);
    BodyIs(m);
    BucketsRead(Body(m), tail, n);
  }

  /** Round trip: the payload of a message of any encodable buckets, in any order
      of their keys, is read back as exactly these buckets with exactly these
      maps. */
  lemma RoundTrip(ms: seq<BucketMap>, op: seq<byte>)
    requires |ms| < 0x1_0000_0000 && forall i | 0 <= i < |ms| :: Encodable(ms[i], op)
    ensures GetPayload(Put32(|ms|) + PutBuckets(ms)) == Some(ReceivedOf(ms))
  {
    var chunks, rs := BucketChunks(ms), ReceivedOf(ms);
    forall i | 0 <= i < |rs| ensures ReadsBucket(chunks[i], rs[i]) {
      forall tail: seq<byte>, n: nat | n > 0 ensures ReadNext(chunks[i], tail, n, rs[i]) {
        HeadRoundTrip(ms[i], op, tail, n);
      }
    }
    BucketsReadBack(chunks, rs, []);
    PayloadReads(|ms|, Concat(chunks));
  }

  lemma PayloadReads(n: uint32, buckets: seq<byte>)
    ensures GetPayload(Put32(n) + buckets) == GetBuckets(buckets + [], n)
  {
    PutGet(0, n, buckets);
    assert (Put32(n) + buckets)[4..] == buckets == buckets + [];
  }

  /** A key map of encoded keys can be sent: the prefix that the format drops and
      restores is the one the encoder put in front of every key. */
  lemma EncodedIsEncodable(m: BucketMap, op: uint16)
    requires InOrder(m.order, m.owners) && |m.order| < 0x1_0000_0000 && |Body(m)| < 0x1_0000_0000
    requires forall k: Key | k in m.owners :: IsEncoded(k, op, m.bucket) && |k| - 6 < 0x1_0000
    ensures Encodable(m, Put16(op))
  {
    forall k: Key | k in m.owners ensures HasPrefix(k, Put16(op), m.bucket) {
      var state: uint16, user: seq<byte> :| k == EncodeKey(op, m.bucket, state, user);
      EncodedKeyHasPrefix(op, m.bucket, state, user);
    }
  }

  /** The round trip for everything the state client writes, up to the length
      fields. */
  lemma EncodedRoundTrip(ms: seq<BucketMap>, op: uint16)
    requires |ms| < 0x1_0000_0000
    requires forall i | 0 <= i < |ms| ::
               InOrder(ms[i].order, ms[i].owners) && |ms[i].order| < 0x1_0000_0000 && |Body(ms[i])| < 0x1_0000_0000
    requires forall i, k: Key | 0 <= i < |ms| && k in ms[i].owners ::
            IsEncoded(k, op, ms[i].bucket) && |k| - 6 < 0x1_0000
    ensures GetPayload(Put32(|ms|) + PutBuckets(ms)) == Some(ReceivedOf(ms))
  {
    forall i | 0 <= i < |ms| ensures Encodable(ms[i], Put16(op)) {
      EncodedIsEncodable(ms[i], op);
    }
    RoundTrip(ms, Put16(op));
  }
}

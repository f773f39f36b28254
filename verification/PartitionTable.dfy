/**
 The partition table: its run-length coding with both decoders, and the byte
 bounds of a range of buckets in the state backend.
 */
module PartitionTable {
  import opened Types
  import opened KeyMapFormat

  datatype OwnerRange = OwnerRange(worker: WorkerId, lower: nat, upper: nat)

  /** Maximal runs of one owner, in order, without gaps. */
  ghost predicate Runs(ranges: seq<OwnerRange>, table: seq<WorkerId>) {
    && ranges != [] && ranges[0].lower == 0 && ranges[|ranges| - 1].upper == |table| - 1
    && (forall i | 0 <= i < |ranges| :: RunOk(ranges[i], table))
    && (forall i | 0 < i < |ranges| ::
        ranges[i].lower == ranges[i - 1].upper + 1 && ranges[i].worker != ranges[i - 1].worker)
  }

  ghost predicate RunOk(r: OwnerRange, table: seq<WorkerId>) {
    r.lower <= r.upper < |table| && forall b | r.lower <= b <= r.upper :: table[b] == r.worker
  }

  /** The finished runs and the one being built cover the first i buckets. */
  ghost predicate Building(ranges: seq<OwnerRange>, range: OwnerRange, table: seq<WorkerId>, i: nat) {
    && i > 0 && range.upper == i - 1 && RunOk(range, table)
    && (forall j | 0 <= j < |ranges| :: RunOk(ranges[j], table))
    && (forall j | 0 < j < |ranges| ::
        ranges[j].lower == ranges[j - 1].upper + 1 && ranges[j].worker != ranges[j - 1].worker)
    && (if ranges == [] then range.lower == 0
        else
          && ranges[0].lower == 0 && range.lower == ranges[|ranges| - 1].upper + 1
          && range.worker != ranges[|ranges| - 1].worker)
  }

  lemma Begins(table: seq<WorkerId>)
    requires table != []
    ensures Building([], OwnerRange(table[0], 0, 0), table, 1)
  {
  }

  lemma Extends(ranges: seq<OwnerRange>, range: OwnerRange, table: seq<WorkerId>, i: nat)
    requires Building(ranges, range, table, i) && i < |table| && table[i] == range.worker
    ensures Building(ranges, range.(upper := i), table, i + 1)
  {
  }

  lemma Closes(ranges: seq<OwnerRange>, range: OwnerRange, table: seq<WorkerId>)
    requires Building(ranges, range, table, |table|)
    ensures Runs(ranges + [range], table)
  {
  }

  lemma Restarts(ranges: seq<OwnerRange>, range: OwnerRange, table: seq<WorkerId>, i: nat)
    requires Building(ranges, range, table, i) && i < |table| && table[i] != range.worker
    ensures Building(ranges + [range], OwnerRange(table[i], i, i), table, i + 1)
  {
  }

  /** Serialize. */
  method Serialize(table: seq<WorkerId>) returns (ranges: seq<OwnerRange>)
    requires table != []
    ensures Runs(ranges, table)
  {
    ranges := [];
    var last, range := table[0], OwnerRange(table[0], 0, 0);
    for i := 0 to |table|
      invariant range.worker == last
      invariant if i == 0 then range == OwnerRange(table[0], 0, 0) && ranges == []
                else Building(ranges, range, table, i)
    {
      if table[i] == last {
        if i == 0 { Begins(table); } else { Extends(ranges, range, table, i); }
        range := range.(upper := i);
      } else {
        Restarts(ranges, range, table, i);
        ranges := ranges + [range];
        last := table[i];
        range := OwnerRange(last, i, i);
      }
    }
    Closes(ranges, range, table);
    ranges := ranges + [range];
  }

  /** The table a list of ranges stands for: each range fills its buckets. */
  method DeserializeIndexed(ranges: seq<OwnerRange>, numBuckets: nat) returns (buckets: array<WorkerId>)
    requires forall i | 0 <= i < |ranges| :: ranges[i].upper < numBuckets
    ensures buckets.Length == numBuckets && fresh(buckets)
    ensures forall b | 0 <= b < numBuckets :: buckets[b] == OwnerIn(ranges, b)
  {
    buckets := new WorkerId[numBuckets](_ => 0);
    for i := 0 to |ranges|
      invariant forall b | 0 <= b < numBuckets :: buckets[b] == OwnerIn(ranges[..i], b)
    {
      var r := ranges[i];
      ghost var before := buckets[..];
      var j := r.lower;
      while j <= r.upper
        invariant r.lower <= j && (if r.lower <= r.upper then j <= r.upper + 1 else j == r.lower)
        invariant forall b | 0 <= b < numBuckets :: buckets[b] == if r.lower <= b < j then r.worker else before[b]
      {
        buckets[j] := r.worker;
        j := j + 1;
      }
      forall b | 0 <= b < numBuckets ensures buckets[b] == OwnerIn(ranges[..i + 1], b) { OwnerInNext(ranges, i, b); }
    }
    assert ranges[..|ranges|] == ranges;
  }

  lemma OwnerInNext(ranges: seq<OwnerRange>, i: nat, b: nat)
    requires i < |ranges|
    ensures OwnerIn(ranges[..i + 1], b) ==
            if ranges[i].lower <= b <= ranges[i].upper then ranges[i].worker else OwnerIn(ranges[..i], b)
  {
    assert ranges[..i + 1][..i] == ranges[..i];
  }

  lemma AppendedNext(ranges: seq<OwnerRange>, i: nat)
    requires i < |ranges|
    ensures var r := ranges[i];
            Appended(ranges[..i + 1]) ==
                Appended(ranges[..i]) + Repeat(r.worker, if r.lower <= r.upper then r.upper - r.lower + 1 else 0)
  {
    assert ranges[..i + 1][..i] == ranges[..i];
  }

  /** The owner of b: the last range that contains it. */
  function OwnerIn(ranges: seq<OwnerRange>, b: nat): WorkerId {
    if ranges == [] then 0
    else
      var r := ranges[|ranges| - 1];
      if r.lower <= b <= r.upper then r.worker else OwnerIn(ranges[..|ranges| - 1], b)
  }

  function Appended(ranges: seq<OwnerRange>): seq<WorkerId> {
    if ranges == [] then []
    else
      var r := ranges[|ranges| - 1];
      Appended(ranges[..|ranges| - 1]) + Repeat(r.worker, if r.lower <= r.upper then r.upper - r.lower + 1 else 0)
  }

  /** The decoder that appends; a wrong number of buckets is fatal. */
  method DeserializeAppending(ranges: seq<OwnerRange>, numBuckets: nat) returns (buckets: Option<seq<WorkerId>>)
    ensures buckets == if |Appended(ranges)| == numBuckets then Some(Appended(ranges)) else None
  {
    var list: seq<WorkerId> := [];
    for i := 0 to |ranges|
      invariant list == Appended(ranges[..i])
    {
      var r := ranges[i];
      ghost var before := list;
      var j := r.lower;
      while j <= r.upper
        invariant r.lower <= j && (if r.lower <= r.upper then j <= r.upper + 1 else j == r.lower)
        invariant list == before + Repeat(r.worker, j - r.lower)
      {
        list := list + [r.worker];
        j := j + 1;
        assert Repeat(r.worker, j - r.lower) == Repeat(r.worker, j - 1 - r.lower) + [r.worker];
      }
      AppendedNext(ranges, i);
    }
    assert ranges[..|ranges|] == ranges;
    buckets := if |list| == numBuckets then Some(list) else None;
  }

  /** The runs up to the n-th cover a prefix of the table. */
  lemma {:induction false} RunsPrefix(ranges: seq<OwnerRange>, table: seq<WorkerId>, n: nat)
    requires Runs(ranges, table) && 0 < n <= |ranges|
    ensures Appended(ranges[..n]) == table[..ranges[n - 1].upper + 1]
    ensures forall b: nat | b <= ranges[n - 1].upper :: OwnerIn(ranges[..n], b) == table[b]
    ensures forall b: nat | b > ranges[n - 1].upper :: OwnerIn(ranges[..n], b) == 0
  {
    var r, init := ranges[n - 1], ranges[..n - 1];
    assert RunOk(r, table);
    assert ranges[..n][..n - 1] == init;
    var run := Repeat(r.worker, r.upper - r.lower + 1);
    if n == 1 {
      assert Appended(ranges[..n]) == [] + run;
    } else {
      RunsPrefix(ranges, table, n - 1);
      assert RunOk(ranges[n - 2], table);
    }
    assert table[..r.upper + 1] == table[..r.lower] + run;
  }

  /** Both decoders recover the table that was serialized. */
  lemma DecodersAgree(ranges: seq<OwnerRange>, table: seq<WorkerId>)
    requires Runs(ranges, table)
    ensures Appended(ranges) == table
    ensures forall b | 0 <= b < |table| :: OwnerIn(ranges, b) == table[b]
  {
    RunsPrefix(ranges, table, |ranges|);
    assert ranges[..|ranges|] == ranges && table[..|table|] == table;
  }

  // --------------------------------------------------------- bucket bounds

  /** Lexicographic order of the state backend. */
  predicate Less(a: seq<byte>, b: seq<byte>) {
    b != [] && (a == [] || a[0] < b[0] || (a[0] == b[0] && Less(a[1..], b[1..])))
  }

  lemma LessCons(x: byte, a: seq<byte>, y: byte, b: seq<byte>)
    ensures Less([x] + a, [y] + b) <==> x < y || (x == y && Less(a, b))
  {
    assert ([x] + a)[1..] == a && ([y] + b)[1..] == b;
  }

  /** Fixed-width big-endian numbers are ordered as numbers. */
  lemma {:induction false} DigitsOrdered(n: nat, m: nat, width: nat, a: seq<byte>, b: seq<byte>)
    requires n < Power(width) && m < Power(width)
    ensures Less(Digits(n, width) + a, Digits(m, width) + b) <==> n < m || (n == m && Less(a, b))
  {
    if width == 0 {
      assert Digits(n, 0) + a == a && Digits(m, 0) + b == b;
    } else {
      var n1, m1 := n / 0x100, m / 0x100;
      DigitsOrdered(n1, m1, width - 1, [n % 0x100] + a, [m % 0x100] + b);
      assert Digits(n, width) + a == Digits(n1, width - 1) + ([n % 0x100] + a);
      assert Digits(m, width) + b == Digits(m1, width - 1) + ([m % 0x100] + b);
      LessCons(n % 0x100, a, m % 0x100, b);
    }
  }

  /** Bound of a bucket range; the bucket is truncated to 32 bits. */
  function Bound(op: uint16, bucket: nat): seq<byte> {
    Put16(op) + Put32(Low32(bucket))
  }

  lemma BoundAgainstKey(op: uint16, bucket: uint32, op': uint16, bucket': uint32, state: uint16, user: seq<byte>)
    ensures Less(EncodeKey(op', bucket', state, user), Bound(op, bucket)) <==>
            op' < op || (op' == op && bucket' < bucket)
  {
    Powers();
    var tail := Put16(state) + user;
    assert EncodeKey(op', bucket', state, user) == Digits(op', 2) + (Digits(bucket', 4) + tail);
    assert Bound(op, bucket) == Digits(op, 2) + (Digits(bucket, 4) + []);
    DigitsOrdered(op', op, 2, Digits(bucket', 4) + tail, Digits(bucket, 4) + []);
    DigitsOrdered(bucket', bucket, 4, tail, []);
  }

  /** RangeQuery is half open. */
  predicate InRange(k: Key, lower: seq<byte>, higher: seq<byte>) {
    !Less(k, lower) && Less(k, higher)
  }

  /** A key is in the bounds of the buckets lower to upper exactly if it belongs to
      the operator and to one of these buckets. */
  lemma BucketRangeExact(op: uint16, lower: uint32, upper: nat, op': uint16, bucket: uint32, state: uint16,
                         user: seq<byte>)
    requires upper + 1 < 0x1_0000_0000
    ensures InRange(EncodeKey(op', bucket, state, user), Bound(op, lower), Bound(op, upper + 1))
        <==> op' == op && lower <= bucket <= upper
  {
    BoundAgainstKey(op, lower, op', bucket, state, user);
    BoundAgainstKey(op, upper + 1, op', bucket, state, user);
  }

  /** The reserved bucket is needed: with the largest 32-bit bucket as upper end
      the bound wraps around and no key at all is in range. */
  lemma BucketRangeWraps(op: uint16, lower: uint32, op': uint16, bucket: uint32, state: uint16, user: seq<byte>)
    ensures !InRange(EncodeKey(op', bucket, state, user), Bound(op, lower), Bound(op, 0xFFFF_FFFF + 1))
  {
    BoundAgainstKey(op, lower, op', bucket, state, user);
    BoundAgainstKey(op, 0, op', bucket, state, user);
  }
}

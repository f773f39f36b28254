/**
 The lock-free ring buffer between one producer and one consumer, with the cyclic
 pool of batches in front of it. Every access to shared memory is one step, so a
 run is an arbitrary interleaving of the two threads.
 */
module RingBuffer {

  /** Where the producer is: it takes a batch from the pool, then retries Enqueue
      until there is room. */
  datatype Producer = Ready | Filled | Checked | Written | Advanced

  /** Where the consumer is: it works on a batch until it calls Dequeue again. */
  datatype Consumer = Working | Loaded | Fetched | Moved

  /** A barrier, a watermark or another signal, or a batch: the number-th one taken
      from the pool, which is the given object of the pool. */
  datatype Unit = Signal(id: nat) | Batch(number: nat, obj: nat)

  datatype Ring = Ring(
    capacity: nat,
    pool: nat,
    slots: seq<Unit>,
    count: int,
    read: nat,
    write: nat,
    nextBatch: nat,
    hand: Unit,                // what the producer is about to push
    current: Unit,             // what the consumer works on
    producer: Producer,
    consumer: Consumer,
    taken: nat,                // auxiliary: batches taken from the pool
    pushed: seq<Unit>,         // auxiliary: units written to the slots
    added: nat,                // auxiliary: increments of count
    popped: seq<Unit>,         // auxiliary: units read from the slots
    removed: nat)              // auxiliary: decrements of count

  datatype Action =
    | Get | Receive(id: nat) | Check | WriteSlot | AdvanceWrite | Increment
    | Load | ReadSlot | AdvanceRead | Decrement

  function Next(i: nat, n: nat): nat {
    if i + 1 == n then 0 else i + 1
  }

  predicate Step(s: Ring, a: Action, s': Ring) {
    match a
    case Get =>
      && s.producer == Ready && s.nextBatch < s.pool
      && s' == s.(producer := Filled, hand := Batch(s.taken, s.nextBatch), nextBatch := Next(s.nextBatch, s.pool),
          taken := s.taken + 1)
    case Receive(id) =>
      s.producer == Ready && s' == s.(producer := Filled, hand := Signal(id))
    case Check =>
      s.producer == Filled && s' == if s.count == s.capacity then s else s.(producer := Checked)
    case WriteSlot =>
      && s.producer == Checked && s.write < |s.slots|
      && s' == s.(producer := Written, slots := s.slots[s.write := s.hand], pushed := s.pushed + [s.hand])
    case AdvanceWrite =>
      s.producer == Written && s' == s.(producer := Advanced, write := Next(s.write, s.capacity))
    case Increment =>
      s.producer == Advanced && s' == s.(producer := Ready, count := s.count + 1, added := s.added + 1)
    case Load =>
      s.consumer == Working && s' == if s.count == 0 then s else s.(consumer := Loaded)
    case ReadSlot =>
      && s.consumer == Loaded && s.read < |s.slots|
      && s' == s.(consumer := Fetched, current := s.slots[s.read], popped := s.popped + [s.slots[s.read]])
    case AdvanceRead =>
      s.consumer == Fetched && s' == s.(consumer := Moved, read := Next(s.read, s.capacity))
    case Decrement =>
      s.consumer == Moved && s' == s.(consumer := Working, count := s.count - 1, removed := s.removed + 1)
  }

  predicate Init(s: Ring) {
    && s.capacity > 0 && s.pool > 0 && |s.slots| == s.capacity
    && s.count == 0 && s.read == 0 && s.write == 0 && s.nextBatch == 0 && s.producer == Ready && s.consumer == Working
    && s.taken == 0 && s.pushed == [] && s.added == 0 && s.popped == [] && s.removed == 0
  }

  // ----------------------------------------------------------- arithmetic

  lemma NextIsMod(x: nat, n: nat)
    requires n > 0
    ensures (x + 1) % n == Next(x % n, n) && x % n < n
  {
    var q, r := x / n, x % n;
    assert x + 1 == q * n + (r + 1);
    if r + 1 == n {
      assert x + 1 == (q + 1) * n;
      ModMultiple(q + 1, n);
    } else {
      ModUnique(x + 1, q, r + 1, n);
    }
  }

  lemma ModUnique(x: nat, q: nat, r: nat, n: nat)
    requires n > 0 && x == q * n + r && r < n
    ensures x % n == r
  {
    var q', r' := x / n, x % n;
    assert (q - q') * n == r' - r;
    assert q - q' >= 1 ==> (q - q') * n >= n;
    assert q' - q >= 1 ==> (q' - q) * n >= n;
  }

  lemma ModMultiple(q: nat, n: nat)
    requires n > 0
    ensures (q * n) % n == 0
  {
    ModUnique(q * n, q, 0, n);
  }

  /** Numbers less than n apart are in different slots. */
  lemma ModDistinct(i: nat, j: nat, n: nat)
    requires n > 0 && i < j < i + n
    ensures i % n != j % n
  {
    var a, b := i / n, j / n;
    assert j - i == (b - a) * n + (j % n - i % n);
    assert b - a <= 0 ==> (b - a) * n <= 0;
    assert b - a >= 1 ==> (b - a) * n >= n;
  }

  // ------------------------------------------------------------- invariant

  function Advances(s: Ring): nat {
    if s.producer == Written then if |s.pushed| > 0 then |s.pushed| - 1 else 0 else |s.pushed|
  }

  function Retreats(s: Ring): nat {
    if s.consumer == Fetched then if |s.popped| > 0 then |s.popped| - 1 else 0 else |s.popped|
  }

  predicate CountsOk(s: Ring) {
    && s.capacity > 0 && s.pool > 0 && |s.slots| == s.capacity
    && s.count == s.added - s.removed && 0 <= s.count <= s.capacity
    && |s.pushed| == s.added + (if s.producer == Written || s.producer == Advanced then 1 else 0)
    && |s.popped| == s.removed + (if s.consumer == Fetched || s.consumer == Moved then 1 else 0)
    && (s.producer == Checked || s.producer == Written || s.producer == Advanced ==> s.count < s.capacity)
    && (s.consumer != Working ==> s.count > 0)
    && s.write == Advances(s) % s.capacity && s.read == Retreats(s) % s.capacity
  }

  /** The slots hold what has been written and not yet removed. */
  ghost predicate SlotsOk(s: Ring)
    requires s.capacity > 0 && |s.slots| == s.capacity
  {
    forall i | s.removed <= i < |s.pushed| :: i % s.capacity < |s.slots| && s.slots[i % s.capacity] == s.pushed[i]
  }

  /** Batches that have been pushed. */
  function Pushed(s: Ring): int {
    s.taken - if (s.producer == Filled || s.producer == Checked) && s.hand.Batch? then 1 else 0
  }

  /** The i-th batch taken from the pool is object i modulo the size of the pool,
      and between two batches that were pushed lie at least as many units as
      batches. */
  ghost predicate PoolOk(s: Ring)
    requires s.pool > 0
  {
    && s.nextBatch == s.taken % s.pool
    && (forall i | 0 <= i < |s.pushed| && s.pushed[i].Batch? :: BatchOk(s, s.pushed[i], |s.pushed| - i))
    && (s.producer == Filled || s.producer == Checked ==>
          s.hand.Batch? ==> s.taken > 0 && s.hand.number == s.taken - 1 && s.hand.obj == s.hand.number % s.pool)
  }

  predicate BatchOk(s: Ring, u: Unit, back: int)
    requires s.pool > 0 && u.Batch?
  {
    u.obj == u.number % s.pool && 0 < Pushed(s) - u.number <= back
  }

  ghost predicate FifoOk(s: Ring) {
    && |s.popped| <= |s.pushed| && s.popped == s.pushed[..|s.popped|]
    && (s.popped != [] ==> s.current == s.popped[|s.popped| - 1])
  }

  ghost predicate RingOk(s: Ring) {
    CountsOk(s) && SlotsOk(s) && PoolOk(s) && FifoOk(s)
  }

  lemma InitOk(s: Ring)
    requires Init(s)
    ensures RingOk(s)
  {
    ModUnique(0, 0, 0, s.capacity);
    ModUnique(0, 0, 0, s.pool);
  }

  lemma PoolSame(s: Ring, s': Ring)
    requires s.pool > 0 && PoolOk(s) && s'.pool == s.pool && s'.pushed == s.pushed && Pushed(s') == Pushed(s)
    requires s'.nextBatch == s'.taken % s'.pool
    requires s'.producer == Filled || s'.producer == Checked ==>
               s'.hand.Batch? ==>
                 s'.taken > 0 && s'.hand.number == s'.taken - 1 && s'.hand.obj == s'.hand.number % s'.pool
    ensures PoolOk(s')
  {
    forall i | 0 <= i < |s'.pushed| && s'.pushed[i].Batch? ensures BatchOk(s', s'.pushed[i], |s'.pushed| - i) {
      assert BatchOk(s, s.pushed[i], |s.pushed| - i);
    }
  }

  lemma GetKeeps(s: Ring, s': Ring)
    requires RingOk(s) && Step(s, Get, s')
    ensures RingOk(s')
  {
    NextIsMod(s.taken, s.pool);
    PoolSame(s, s');
  }

  lemma WriteKeeps(s: Ring, s': Ring)
    requires RingOk(s) && Step(s, WriteSlot, s')
    ensures RingOk(s')
  {
    var w := |s.pushed|;
    forall i | s'.removed <= i < |s'.pushed|
      ensures i % s.capacity < |s'.slots| && s'.slots[i % s.capacity] == s'.pushed[i]
    {
      if i < w { ModDistinct(i, w, s.capacity); }
    }
    forall i | 0 <= i < |s'.pushed| && s'.pushed[i].Batch? ensures BatchOk(s', s'.pushed[i], |s'.pushed| - i) {
      if i < w { assert BatchOk(s, s.pushed[i], w - i); }
    }
    assert s'.pushed[..|s.popped|] == s.pushed[..|s.popped|];
  }

  lemma ReadKeeps(s: Ring, s': Ring)
    requires RingOk(s) && Step(s, ReadSlot, s')
    ensures RingOk(s')
  {
    var r := s.removed;
    assert s.slots[r % s.capacity] == s.pushed[r];
    assert s'.popped == s.pushed[..r] + [s.pushed[r]] == s.pushed[..r + 1];
    PoolSame(s, s');
  }

  lemma AdvanceWriteKeeps(s: Ring, s': Ring)
    requires RingOk(s) && Step(s, AdvanceWrite, s')
    ensures RingOk(s')
  {
    NextIsMod(|s.pushed| - 1, s.capacity);
    PoolSame(s, s');
  }

  lemma AdvanceReadKeeps(s: Ring, s': Ring)
    requires RingOk(s) && Step(s, AdvanceRead, s')
    ensures RingOk(s')
  {
    NextIsMod(|s.popped| - 1, s.capacity);
    PoolSame(s, s');
  }

  lemma ProducerKeeps(s: Ring, a: Action, s': Ring)
    requires RingOk(s) && Step(s, a, s') && (a.Receive? || a == Check)
    ensures RingOk(s')
  {
    PoolSame(s, s');
  }

  lemma IncrementKeeps(s: Ring, s': Ring)
    requires RingOk(s) && Step(s, Increment, s')
    ensures RingOk(s')
  {
    PoolSame(s, s');
  }

  lemma ConsumerKeeps(s: Ring, a: Action, s': Ring)
    requires RingOk(s) && Step(s, a, s') && (a == Load || a == Decrement)
    ensures RingOk(s')
  {
    PoolSame(s, s');
  }

  lemma StepKeeps(s: Ring, a: Action, s': Ring)
    requires RingOk(s) && Step(s, a, s')
    ensures RingOk(s')
  {
    match a
    case Get => GetKeeps(s, s');
    case WriteSlot => WriteKeeps(s, s');
    case ReadSlot => ReadKeeps(s, s');
    case AdvanceWrite => AdvanceWriteKeeps(s, s');
    case AdvanceRead => AdvanceReadKeeps(s, s');
    case Increment => IncrementKeeps(s, s');
    case Receive(_) => ProducerKeeps(s, a, s');
    case Check => ProducerKeeps(s, a, s');
    case Load => ConsumerKeeps(s, a, s');
    case Decrement => ConsumerKeeps(s, a, s');
  }

  // ------------------------------------------------------------- theorems

  ghost predicate IsRun(trace: seq<Ring>, acts: seq<Action>) {
    && |trace| == |acts| + 1 && Init(trace[0])
    && forall i: nat | i < |acts| :: StepAt(trace, acts, i)
  }

  predicate StepAt(trace: seq<Ring>, acts: seq<Action>, i: nat)
    requires |trace| == |acts| + 1 && i < |acts|
  {
    Step(trace[i], acts[i], trace[i + 1])
  }

  lemma {:induction false} RunOk(trace: seq<Ring>, acts: seq<Action>, i: nat)
    requires IsRun(trace, acts) && i < |trace|
    ensures RingOk(trace[i])
    ensures trace[i].capacity == trace[0].capacity && trace[i].pool == trace[0].pool
  {
    if i == 0 {
      InitOk(trace[0]);
    } else {
      RunOk(trace, acts, i - 1);
      assert StepAt(trace, acts, i - 1);
      StepKeeps(trace[i - 1], acts[i - 1], trace[i]);
    }
  }

  /** Batches taken from the pool. */
  function Gets(acts: seq<Action>): nat {
    if acts == [] then 0 else Gets(acts[..|acts| - 1]) + if acts[|acts| - 1] == Get then 1 else 0
  }

  /** The units the producer has for the buffer, in order: the batches it takes from
      a pool of the given size, and the signals it receives. */
  function Offered(acts: seq<Action>, pool: nat): seq<Unit>
    requires pool > 0
  {
    if acts == [] then []
    else
      var init, a := acts[..|acts| - 1], acts[|acts| - 1];
      Offered(init, pool)
      + if a == Get then [Batch(Gets(init), Gets(init) % pool)] else if a.Receive? then [Signal(a.id)] else []
  }

  /** Units the consumer took out of a slot. */
  function Reads(acts: seq<Action>): nat {
    if acts == [] then 0 else Reads(acts[..|acts| - 1]) + if acts[|acts| - 1] == ReadSlot then 1 else 0
  }

  /** The unit the producer still has to write. */
  function InHand(s: Ring): seq<Unit> {
    if s.producer == Filled || s.producer == Checked then [s.hand] else []
  }

  /** Nothing the producer has is left out: every unit was written or is in its
      hand, and the consumer has one unit for each slot it read. */
  lemma {:induction false} AllOffered(trace: seq<Ring>, acts: seq<Action>, i: nat)
    requires IsRun(trace, acts) && i < |trace|
    ensures trace[0].pool > 0 && Offered(acts[..i], trace[0].pool) == trace[i].pushed + InHand(trace[i])
    ensures trace[i].taken == Gets(acts[..i]) && |trace[i].popped| == Reads(acts[..i])
  {
    if i > 0 {
      AllOffered(trace, acts, i - 1);
      RunOk(trace, acts, i - 1);
      assert acts[..i][..i - 1] == acts[..i - 1];
      assert StepAt(trace, acts, i - 1);
    }
  }

  /** The buffer is a bounded queue: whatever the interleaving, the consumer gets
      what the producer has for it, in order, each unit once, and at most `capacity`
      units are in between. Enqueue fails exactly when it finds the buffer full, and
      dequeue exactly when it finds it empty. */
  lemma IsQueue(trace: seq<Ring>, acts: seq<Action>, i: nat)
    requires IsRun(trace, acts) && i < |trace|
    ensures trace[i].popped <= trace[i].pushed
    ensures trace[0].pool > 0 && trace[i].popped <= Offered(acts[..i], trace[0].pool)
    ensures |trace[i].popped| == Reads(acts[..i])
    ensures i < |acts| && acts[i] == ReadSlot ==>
              var all := Offered(acts[..i], trace[0].pool);
              Reads(acts[..i]) < |all| && trace[i + 1].current == all[Reads(acts[..i])]
    ensures 0 <= trace[i].added - trace[i].removed <= trace[0].capacity
    ensures i < |acts| && acts[i] == Check ==>
              (trace[i + 1].producer == Filled <==> trace[i].added - trace[i].removed == trace[0].capacity)
    ensures i < |acts| && acts[i] == Load ==>
              (trace[i + 1].consumer == Working <==> trace[i].added == trace[i].removed)
  {
    RunOk(trace, acts, i);
    AllOffered(trace, acts, i);
    if i < |acts| {
      assert StepAt(trace, acts, i);
      RunOk(trace, acts, i + 1);
    }
  }

  /** When both threads are between two calls and the buffer is empty, the consumer
      has got everything. */
  lemma AllDelivered(trace: seq<Ring>, acts: seq<Action>, i: nat)
    requires IsRun(trace, acts) && i < |trace|
    requires trace[i].producer == Ready && trace[i].consumer == Working && trace[i].count == 0
    ensures trace[0].pool > 0 && trace[i].popped == Offered(acts[..i], trace[0].pool)
  {
    RunOk(trace, acts, i);
    AllOffered(trace, acts, i);
  }

  /** Object o of the pool is queued, or is the batch the consumer has. */
  ghost predicate InUse(s: Ring, o: nat) {
    || (exists j :: s.removed <= j < |s.pushed| && s.pushed[j].Batch? && s.pushed[j].obj == o)
    || (s.popped != [] && s.current.Batch? && s.current.obj == o)
  }

  /** A pool of capacity + 2 never hands out a batch that is in use. */
  lemma NoAliasing(trace: seq<Ring>, acts: seq<Action>, i: nat)
    requires IsRun(trace, acts) && i < |acts| && acts[i] == Get && trace[0].pool >= trace[0].capacity + 2
    ensures trace[i + 1].hand.Batch? && !InUse(trace[i], trace[i + 1].hand.obj)
  {
    RunOk(trace, acts, i);
    assert StepAt(trace, acts, i);
    var s := trace[i];
    forall j | 0 <= j < |s.pushed| && s.removed - 1 <= j && s.pushed[j].Batch? ensures s.pushed[j].obj != s.nextBatch {
      assert BatchOk(s, s.pushed[j], |s.pushed| - j);
      ModDistinct(s.pushed[j].number, s.taken, s.pool);
    }
    if s.popped != [] {
      assert s.popped[|s.popped| - 1] == s.pushed[|s.popped| - 1];
    }
  }

  // ------------------------------------------------- the pool size is tight

  ghost predicate Reaches(trace: seq<Ring>, acts: seq<Action>, s: Ring) {
    IsRun(trace, acts) && trace[|acts|] == s
  }

  lemma Extend(trace: seq<Ring>, acts: seq<Action>, s: Ring, a: Action, s': Ring)
    requires Reaches(trace, acts, s) && Step(s, a, s')
    ensures Reaches(trace + [s'], acts + [a], s')
  {
    var trace', acts' := trace + [s'], acts + [a];
    forall i: nat | i < |acts'| ensures StepAt(trace', acts', i) {
      if i < |acts| { assert StepAt(trace, acts, i); }
    }
  }

  /** Both threads are between two calls, and only batches were pushed. */
  ghost predicate Quiet(s: Ring, n: nat, m: nat, pushes: nat, pops: nat) {
    && RingOk(s) && s.capacity == n && s.pool == m && s.producer == Ready && s.consumer == Working
    && s.taken == s.added == pushes && s.removed == pops
    && (forall i | 0 <= i < |s.pushed| :: s.pushed[i].Batch? && s.pushed[i].number == i)
  }

  lemma Push(trace: seq<Ring>, acts: seq<Action>, s: Ring, n: nat, m: nat, pushes: nat, pops: nat)
    returns (trace': seq<Ring>, acts': seq<Action>, s': Ring)
    requires Reaches(trace, acts, s) && Quiet(s, n, m, pushes, pops) && pushes - pops < n
    ensures Reaches(trace', acts', s') && Quiet(s', n, m, pushes + 1, pops) && s'.popped == s.popped
  {
    var b := Batch(s.taken, s.nextBatch);
    var s1 := s.(producer := Filled, hand := b, nextBatch := Next(s.nextBatch, s.pool), taken := s.taken + 1);
    NextIsMod(s.taken, s.pool);
    Extend(trace, acts, s, Get, s1);
    var s2 := s1.(producer := Checked);
    Extend(trace + [s1], acts + [Get], s1, Check, s2);
    var s3 := s2.(producer := Written, slots := s2.slots[s2.write := b], pushed := s2.pushed + [b]);
    NextIsMod(|s.pushed|, s.capacity);
    Extend(trace + [s1] + [s2], acts + [Get] + [Check], s2, WriteSlot, s3);
    var s4 := s3.(producer := Advanced, write := Next(s3.write, s3.capacity));
    Extend(trace + [s1] + [s2] + [s3], acts + [Get] + [Check] + [WriteSlot], s3, AdvanceWrite, s4);
    s' := s4.(producer := Ready, count := s4.count + 1, added := s4.added + 1);
    Extend(trace + [s1] + [s2] + [s3] + [s4], acts + [Get] + [Check] + [WriteSlot] + [AdvanceWrite], s4, Increment, s');
    trace' := trace + [s1] + [s2] + [s3] + [s4] + [s'];
    acts' := acts + [Get] + [Check] + [WriteSlot] + [AdvanceWrite] + [Increment];
    RunOk(trace', acts', |acts'|);
  }

  lemma Pop(trace: seq<Ring>, acts: seq<Action>, s: Ring, n: nat, m: nat, pushes: nat, pops: nat)
    returns (trace': seq<Ring>, acts': seq<Action>, s': Ring)
    requires Reaches(trace, acts, s) && Quiet(s, n, m, pushes, pops) && pops < pushes
    ensures Reaches(trace', acts', s') && Quiet(s', n, m, pushes, pops + 1) && |s'.popped| == pops + 1
  {
    var s1 := s.(consumer := Loaded);
    Extend(trace, acts, s, Load, s1);
    NextIsMod(|s.popped|, s.capacity);
    var u := s1.slots[s1.read];
    var s2 := s1.(consumer := Fetched, current := u, popped := s1.popped + [u]);
    Extend(trace + [s1], acts + [Load], s1, ReadSlot, s2);
    var s3 := s2.(consumer := Moved, read := Next(s2.read, s2.capacity));
    Extend(trace + [s1] + [s2], acts + [Load] + [ReadSlot], s2, AdvanceRead, s3);
    s' := s3.(consumer := Working, count := s3.count - 1, removed := s3.removed + 1);
    Extend(trace + [s1] + [s2] + [s3], acts + [Load] + [ReadSlot] + [AdvanceRead], s3, Decrement, s');
    trace' := trace + [s1] + [s2] + [s3] + [s'];
    acts' := acts + [Load] + [ReadSlot] + [AdvanceRead] + [Decrement];
    RunOk(trace', acts', |acts'|);
  }

  lemma {:induction false} PushMany(trace: seq<Ring>, acts: seq<Action>, s: Ring, n: nat, m: nat, pushes: nat, k: nat)
    returns (trace': seq<Ring>, acts': seq<Action>, s': Ring)
    requires Reaches(trace, acts, s) && Quiet(s, n, m, pushes, 1) && pushes - 1 + k <= n && |s.popped| == 1
    ensures Reaches(trace', acts', s') && Quiet(s', n, m, pushes + k, 1) && |s'.popped| == 1
    decreases k
  {
    if k == 0 {
      trace', acts', s' := trace, acts, s;
    } else {
      trace', acts', s' := Push(trace, acts, s, n, m, pushes, 1);
      trace', acts', s' := PushMany(trace', acts', s', n, m, pushes + 1, k - 1);
    }
  }

  /** With any smaller pool there is a run in which the producer is handed the
      batch that the consumer is working on. */
  lemma SmallerPoolAliases(n: nat, m: nat) returns (trace: seq<Ring>, acts: seq<Action>, i: nat)
    requires 0 < n && 0 < m < n + 2
    ensures IsRun(trace, acts) && trace[0].capacity == n && trace[0].pool == m
    ensures i < |acts| && acts[i] == Get && trace[i + 1].hand.Batch? && InUse(trace[i], trace[i + 1].hand.obj)
  {
    var s := Ring(n, m, seq(n, _ => Signal(0)), 0, 0, 0, 0, Signal(0), Signal(0), Ready, Working, 0, [], 0, [], 0);
    trace, acts := [s], [];
    InitOk(s);
    trace, acts, s := Push(trace, acts, s, n, m, 0, 0);
    trace, acts, s := Pop(trace, acts, s, n, m, 1, 0);
    trace, acts, s := PushMany(trace, acts, s, n, m, 1, m - 1);
    assert s.current == s.popped[0] == s.pushed[0];
    assert BatchOk(s, s.pushed[0], |s.pushed|);
    ModUnique(m, 1, 0, m);
    ModUnique(0, 0, 0, m);
    NextIsMod(s.taken, m);
    var s' := s.(producer := Filled, hand := Batch(s.taken, s.nextBatch), nextBatch := Next(s.nextBatch, s.pool),
        taken := s.taken + 1);
    Extend(trace, acts, s, Get, s');
    RunOk(trace, acts, |acts|);
    i := |acts|;
    trace, acts := trace + [s'], acts + [Get];
  }
}

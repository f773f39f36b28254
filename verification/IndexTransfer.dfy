/**
 In-memory indices that move with their keys: active windows and timers. The
 sender takes the entries of moved keys out of its index, one message per new
 owner, and the receivers add them to theirs.
 */
module IndexTransfer {
  import opened Types

  /** Entries by time and key; X is what an entry carries, such as the panes of a
      window. */
  type Entries<K(==), X> = map<(int, K), X>

  /** The entries of one destination. */
  function For<K, X>(moved: map<WorkerId, Entries<K, X>>, d: WorkerId): Entries<K, X> {
    if d in moved then moved[d] else map[]
  }

  function Owned<K, X>(es: Entries<K, X>, owner: K -> WorkerId, d: WorkerId): Entries<K, X> {
    map x | x in es && owner(x.1) == d :: es[x]
  }

  ghost predicate SentTo<K, X>(message: Entries<K, X>, es: Entries<K, X>, rest: set<(int, K)>, owner: K -> WorkerId,
                               me: WorkerId, d: WorkerId, x: (int, K))
  {
    && (x in message <==> x in es && x !in rest && owner(x.1) == d && d != me)
    && (x in message ==> message[x] == es[x])
  }

  /** The index after receiving entries: one that is there already is joined with
      the received one. */
  function Joined<K, X>(es: Entries<K, X>, received: Entries<K, X>, join: (X, X) -> X): Entries<K, X> {
    map x | x in es.Keys + received.Keys ::
      if x !in received then es[x] else if x in es then join(es[x], received[x]) else received[x]
  }

  class ActiveIndex<K(==, !new), X(!new)> {
    const me: WorkerId
    const join: (X, X) -> X            // appends pane lists; a timer has nothing to join
    var entries: Entries<K, X>

    constructor (me: WorkerId, join: (X, X) -> X)
      ensures this.me == me && this.join == join && entries == map[]
    {
      this.me, this.join, entries := me, join, map[];
    }

    /** ConstructFastForwardMetadata: every entry of a key with another owner goes
        to that owner's message, and only those do. */
    method Construct(owner: K -> WorkerId) returns (moved: map<WorkerId, Entries<K, X>>)
      modifies this
      ensures entries == Owned(old(entries), owner, me)
      ensures forall d: WorkerId :: For(moved, d) == if d == me then map[] else Owned(old(entries), owner, d)
    {
      moved := map[];
      var rest := entries.Keys;
      while rest != {}
        invariant rest <= old(entries).Keys
        invariant forall x :: x in entries <==> x in old(entries) && (x in rest || owner(x.1) == me)
        invariant forall x | x in entries :: entries[x] == old(entries)[x]
        invariant forall d: WorkerId, x: (int, K) :: SentTo(For(moved, d), old(entries), rest, owner, me, d, x)
        decreases rest
      {
        ghost var before, left := moved, rest;
        var x :| x in rest;
        rest := rest - {x};
        var d := owner(x.1);
        if d != me {
          var more: Entries<K, X> := For(moved, d)[x := entries[x]];
          moved := moved[d := more];
          entries := entries - {x};
        }
        forall e: WorkerId, y: (int, K) ensures SentTo(For(moved, e), old(entries), rest, owner, me, e, y) {
          assert SentTo(For(before, e), old(entries), left, owner, me, e, y);
        }
      }
      forall d: WorkerId ensures For(moved, d) == if d == me then map[] else Owned(old(entries), owner, d) {
        forall x: (int, K) ensures x in For(moved, d) <==> d != me && x in Owned(old(entries), owner, d) {
          assert SentTo(For(moved, d), old(entries), {}, owner, me, d, x);
        }
        forall x | x in For(moved, d) ensures For(moved, d)[x] == old(entries)[x] {
          assert SentTo(For(moved, d), old(entries), {}, owner, me, d, x);
        }
      }
    }

    /** ProcessFastForwardMetadata. */
    method Receive(received: Entries<K, X>)
      modifies this
      ensures entries == Joined(old(entries), received, join)
      ensures entries.Keys == old(entries).Keys + received.Keys
      ensures forall x | x in received && x !in old(entries) :: entries[x] == received[x]
      ensures forall x | x in received && x in old(entries) :: entries[x] == join(old(entries)[x], received[x])
      ensures forall x | x in old(entries) && x !in received :: entries[x] == old(entries)[x]
    {
      var rest := received.Keys;
      while rest != {}
        invariant rest <= received.Keys
        invariant forall x :: x in entries <==> x in old(entries) || (x in received && x !in rest)
        invariant forall x | x in entries ::
                    entries[x] ==
                      if x in received && x !in rest then Joined(old(entries), received, join)[x] else old(entries)[x]
        decreases rest
      {
        var x :| x in rest;
        rest := rest - {x};
        entries := entries[x := if x in entries then join(entries[x], received[x]) else received[x]];
      }
    }
  }

  // ---------------------------------------------------------- conservation

  type Workers<K(==), X> = map<WorkerId, Entries<K, X>>

  function At<K, X>(ws: Workers<K, X>, w: WorkerId): Entries<K, X> {
    if w in ws then ws[w] else map[]
  }

  /** Worker w has the entry x with payload v. */
  ghost predicate Has<K, X>(ws: Workers<K, X>, w: WorkerId, x: (int, K), v: X) {
    x in At(ws, w) && At(ws, w)[x] == v
  }

  /** No entry is at two workers. */
  ghost predicate Single<K(!new), X>(ws: Workers<K, X>) {
    forall v: WorkerId, w: WorkerId, x | x in At(ws, v) && x in At(ws, w) :: v == w
  }

  /** After the transfer a worker has what it kept and what the others sent it. */
  ghost predicate Transferred<K(!new), X(!new)>(before: Workers<K, X>, after: Workers<K, X>, owner: K -> WorkerId) {
    forall w: WorkerId, x, v: X :: Has(after, w, x, v) <==>
        owner(x.1) == w && exists u: WorkerId :: Has(before, u, x, v)
  }

  /** Entries are conserved: each one is at exactly one worker afterwards, the
      owner of its key, with the payload it had. */
  lemma Conserved<K(!new), X(!new)>(before: Workers<K, X>, after: Workers<K, X>, owner: K -> WorkerId, x: (int, K),
                                    v: X)
    requires Transferred(before, after, owner)
    ensures (exists u: WorkerId :: Has(before, u, x, v)) <==> exists w: WorkerId :: Has(after, w, x, v)
    ensures forall w: WorkerId :: Has(after, w, x, v) ==> w == owner(x.1)
    ensures Single(after)
  {
    if u: WorkerId :| Has(before, u, x, v) { assert Has(after, owner(x.1), x, v); }
    forall u: WorkerId, w: WorkerId, y | y in At(after, u) && y in At(after, w) ensures u == w {
      assert Has(after, u, y, At(after, u)[y]) && Has(after, w, y, At(after, w)[y]);
    }
  }

  /** What worker w has after receiving the messages of the given senders. */
  function Gathered<K, X>(before: Workers<K, X>, senders: seq<WorkerId>, owner: K -> WorkerId,
                          w: WorkerId): Entries<K, X> {
    if senders == [] then Owned(At(before, w), owner, w)
    else
      var n := |senders| - 1;
      Gathered(before, senders[..n], owner, w)
      + if senders[n] == w then map[] else Owned(At(before, senders[n]), owner, w)
  }

  lemma {:induction false} GatheredIff<K(!new), X(!new)>(before: Workers<K, X>, senders: seq<WorkerId>,
                                                         owner: K -> WorkerId, w: WorkerId, x: (int, K), v: X)
    requires Single(before)
    ensures x in Gathered(before, senders, owner, w) && Gathered(before, senders, owner, w)[x] == v
        <==> owner(x.1) == w && exists u: WorkerId :: (u == w || u in senders) && Has(before, u, x, v)
    ensures x in Gathered(before, senders, owner, w) ==> exists u: WorkerId ::
            (u == w || u in senders) && x in At(before, u)
  {
    if senders == [] {
      assert Has(before, w, x, v) ==> exists u: WorkerId :: (u == w || u in senders) && Has(before, u, x, v);
      assert x in At(before, w) ==> exists u: WorkerId :: (u == w || u in senders) && x in At(before, u);
    } else {
      var n := |senders| - 1;
      var init, u := senders[..n], senders[n];
      GatheredIff(before, init, owner, w, x, v);
      assert senders == init + [u];
      var g, g' := Gathered(before, init, owner, w), Gathered(before, senders, owner, w);
      if x in At(before, u) && owner(x.1) == w && u != w {
        assert x in g';
        assert Has(before, u, x, At(before, u)[x]);
      }
    }
  }

  /** When every worker that has entries sends them to their owners, the result is
      a transfer. */
  lemma TransferComplete<K(!new), X(!new)>(before: Workers<K, X>, after: Workers<K, X>, senders: seq<WorkerId>,
                                           owner: K -> WorkerId)
    requires Single(before) && forall w | w in before :: w in senders
    requires forall w: WorkerId :: At(after, w) == Gathered(before, senders, owner, w)
    ensures Transferred(before, after, owner)
  {
    forall w: WorkerId, x, v: X
      ensures Has(after, w, x, v) <==> owner(x.1) == w && exists u: WorkerId :: Has(before, u, x, v)
    {
      GatheredIff(before, senders, owner, w, x, v);
      if u: WorkerId :| Has(before, u, x, v) { assert u in senders; }
    }
  }

  // --------------------------------------------------------- all the workers

  /** The index of each worker. */
  ghost function Snapshot<K(!new), X(!new)>(workers: seq<ActiveIndex<K, X>>): Workers<K, X>
    requires Apart(workers)
    reads workers
  {
    map i | 0 <= i < |workers| :: workers[i].me := workers[i].entries
  }

  function Names<K(==, !new), X(!new)>(workers: seq<ActiveIndex<K, X>>): seq<WorkerId> {
    seq(|workers|, i requires 0 <= i < |workers| => workers[i].me)
  }

  /** Different workers are different objects. */
  ghost predicate Apart<K(!new), X(!new)>(workers: seq<ActiveIndex<K, X>>) {
    forall i, j :: 0 <= i < j < |workers| ==> workers[i].me != workers[j].me && workers[i] != workers[j]
  }

  lemma JoinedDisjoint<K, X>(es: Entries<K, X>, received: Entries<K, X>, join: (X, X) -> X)
    requires es.Keys !! received.Keys
    ensures Joined(es, received, join) == es + received
  {
  }

  /** A message has nothing the receiver already has. */
  lemma NothingTwice<K(!new), X(!new)>(before: Workers<K, X>, senders: seq<WorkerId>, owner: K -> WorkerId, w: WorkerId,
                                       u: WorkerId)
    requires Single(before) && u != w && u !in senders
    ensures Gathered(before, senders, owner, w).Keys !! Owned(At(before, u), owner, w).Keys
  {
    forall x | x in Gathered(before, senders, owner, w) ensures x !in At(before, u) {
      GatheredIff(before, senders, owner, w, x, Gathered(before, senders, owner, w)[x]);
    }
  }

  /** Worker w receives its messages from all senders, in order. */
  method ReceiveAll<K(==, !new), X(!new)>(w: ActiveIndex<K, X>, names: seq<WorkerId>,
                                          messages: seq<map<WorkerId, Entries<K, X>>>,
                                          ghost before: Workers<K, X>, owner: K -> WorkerId)
    requires Single(before) && |messages| == |names| && forall i, j :: 0 <= i < j < |names| ==> names[i] != names[j]
    requires w.entries == Owned(At(before, w.me), owner, w.me)
    requires forall i, d: WorkerId | 0 <= i < |messages| :: Sent(before, names[i], messages[i], owner, d)
    modifies w
    ensures w.entries == Gathered(before, names, owner, w.me)
  {
    for i := 0 to |names|
      invariant w.entries == Gathered(before, names[..i], owner, w.me)
    {
      ghost var kept := w.entries;
      assert Sent(before, names[i], messages[i], owner, w.me);
      if w.me in messages[i] {
        w.Receive(messages[i][w.me]);
      }
      assert names[..i + 1][..i] == names[..i];
      if names[i] != w.me {
        assert names[i] !in names[..i];
        NothingTwice(before, names[..i], owner, w.me, names[i]);
      }
      JoinedDisjoint(kept, For(messages[i], w.me), w.join);
    }
    assert names[..|names|] == names;
  }

  /** What worker u sends to d. */
  ghost predicate Sent<K, X>(before: Workers<K, X>, u: WorkerId, message: map<WorkerId, Entries<K, X>>,
                             owner: K -> WorkerId, d: WorkerId) {
    For(message, d) == if d == u then map[] else Owned(At(before, u), owner, d)
  }

  /** Every worker takes out what others own. */
  method SendAll<K(==, !new), X(!new)>(workers: seq<ActiveIndex<K, X>>, ghost before: Workers<K, X>,
                                       owner: K -> WorkerId)
    returns (messages: seq<map<WorkerId, Entries<K, X>>>)
    requires Apart(workers) && forall i | 0 <= i < |workers| :: workers[i].entries == At(before, workers[i].me)
    modifies workers
    ensures |messages| == |workers|
    ensures forall i | 0 <= i < |workers| ::
            workers[i].entries == Owned(At(before, workers[i].me), owner, workers[i].me)
    ensures forall i, d: WorkerId | 0 <= i < |workers| :: Sent(before, workers[i].me, messages[i], owner, d)
  {
    messages := [];
    for i := 0 to |workers|
      invariant |messages| == i
      invariant forall j | i <= j < |workers| :: workers[j].entries == At(before, workers[j].me)
      invariant forall j | 0 <= j < i :: workers[j].entries == Owned(At(before, workers[j].me), owner, workers[j].me)
      invariant forall j, d: WorkerId | 0 <= j < i :: Sent(before, workers[j].me, messages[j], owner, d)
    {
      var moved := workers[i].Construct(owner);
      messages := messages + [moved];
    }
  }

  method ReceiveEach<K(==, !new), X(!new)>(workers: seq<ActiveIndex<K, X>>, names: seq<WorkerId>,
                                           messages: seq<map<WorkerId, Entries<K, X>>>,
                                           ghost before: Workers<K, X>, owner: K -> WorkerId)
    requires Apart(workers) && Single(before) && names == Names(workers) && |messages| == |names|
    requires forall i | 0 <= i < |workers| :: workers[i].entries == Owned(At(before, names[i]), owner, names[i])
    requires forall i, d: WorkerId | 0 <= i < |messages| :: Sent(before, names[i], messages[i], owner, d)
    modifies workers
    ensures forall i | 0 <= i < |workers| :: workers[i].entries == Gathered(before, names, owner, names[i])
  {
    for i := 0 to |workers|
      invariant forall j | i <= j < |workers| :: workers[j].entries == Owned(At(before, names[j]), owner, names[j])
      invariant forall j | 0 <= j < i :: workers[j].entries == Gathered(before, names, owner, names[j])
    {
      ReceiveAll(workers[i], names, messages, before, owner);
    }
  }

  lemma SnapshotAt<K(!new), X(!new)>(workers: seq<ActiveIndex<K, X>>, w: WorkerId)
    requires Apart(workers)
    ensures w !in Names(workers) ==> w !in Snapshot(workers)
    ensures forall i | 0 <= i < |workers| && workers[i].me == w :: At(Snapshot(workers), w) == workers[i].entries
  {
    forall i | 0 <= i < |workers| && workers[i].me == w ensures At(Snapshot(workers), w) == workers[i].entries {
      assert workers[i].me in Snapshot(workers);
    }
    assert forall i | 0 <= i < |workers| :: Names(workers)[i] == workers[i].me;
  }

  lemma AllGathered<K(!new), X(!new)>(workers: seq<ActiveIndex<K, X>>, before: Workers<K, X>, owner: K -> WorkerId)
    requires Apart(workers) && Single(before) && (forall k: K :: owner(k) in Names(workers))
    requires before.Keys == Elements(Names(workers))
    requires forall i | 0 <= i < |workers| ::
            workers[i].entries == Gathered(before, Names(workers), owner, workers[i].me)
    ensures Transferred(before, Snapshot(workers), owner)
  {
    var names, after := Names(workers), Snapshot(workers);
    forall w: WorkerId ensures At(after, w) == Gathered(before, names, owner, w) {
      SnapshotAt(workers, w);
      if w !in names {
        NobodysEntries(before, names, owner, w);
      } else {
        var i :| 0 <= i < |names| && names[i] == w;
        assert workers[i].me == w;
      }
    }
    TransferComplete(before, after, names, owner);
  }

  /** Every worker sends and then receives: the contracts of Construct and Receive
      make a transfer. */
  method TransferAll<K(==, !new), X(!new)>(workers: seq<ActiveIndex<K, X>>, owner: K -> WorkerId)
    requires Apart(workers) && Single(Snapshot(workers)) && forall k: K :: owner(k) in Names(workers)
    modifies workers
    ensures Transferred(old(Snapshot(workers)), Snapshot(workers), owner)
  {
    ghost var before := Snapshot(workers);
    var names := Names(workers);
    forall i | 0 <= i < |workers|
      ensures workers[i].entries == At(before, workers[i].me)
    {
      SnapshotAt(workers, workers[i].me);
    }
    SnapshotKeys(workers);
    var messages := SendAll(workers, before, owner);
    ReceiveEach(workers, names, messages, before, owner);
    AllGathered(workers, before, owner);
  }

  lemma SnapshotKeys<K(!new), X(!new)>(workers: seq<ActiveIndex<K, X>>)
    requires Apart(workers)
    ensures Snapshot(workers).Keys == Elements(Names(workers))
  {
    forall w: WorkerId ensures w in Snapshot(workers) <==> w in Names(workers) {
      SnapshotAt(workers, w);
      if w in Names(workers) {
        var i :| 0 <= i < |workers| && Names(workers)[i] == w;
        assert workers[i].me in Snapshot(workers);
      }
    }
  }

  /** Nothing is sent to a worker that owns no key. */
  lemma {:induction false} NobodysEntries<K(!new), X(!new)>(before: Workers<K, X>, senders: seq<WorkerId>,
                                                            owner: K -> WorkerId, w: WorkerId)
    requires forall k: K :: owner(k) != w
    ensures Gathered(before, senders, owner, w) == map[]
  {
    if senders != [] { NobodysEntries(before, senders[..|senders| - 1], owner, w); }
  }
}

/**
 Fast forwarding of one batch: records whose key has a new owner go to the peer
 collector, the others stay for local processing.
 */
module FastForward {
  import opened Types

  /** The records of a batch that worker w owns, in order. */
  function OwnedBy<R>(batch: seq<R>, owner: R -> WorkerId, w: WorkerId): seq<R> {
    if batch == [] then []
    else
      var n := |batch| - 1;
      OwnedBy(batch[..n], owner, w) + if owner(batch[n]) == w then [batch[n]] else []
  }

  function SentTo<R>(peers: map<WorkerId, seq<R>>, w: WorkerId): seq<R> {
    if w in peers then peers[w] else []
  }

  lemma OwnedNext<R>(batch: seq<R>, owner: R -> WorkerId, w: WorkerId, i: nat)
    requires i < |batch|
    ensures OwnedBy(batch[..i + 1], owner, w) ==
              OwnedBy(batch[..i], owner, w) + if owner(batch[i]) == w then [batch[i]] else []
  {
    assert batch[..i + 1][..i] == batch[..i];
  }

  ghost predicate SplitTo<R>(batch: seq<R>, owner: R -> WorkerId, me: WorkerId, n: nat,
                             before: map<WorkerId, seq<R>>, peers: map<WorkerId, seq<R>>, w: WorkerId)
    requires n <= |batch|
  {
    SentTo(peers, w) == SentTo(before, w) + if w == me then [] else OwnedBy(batch[..n], owner, w)
  }

  lemma SplitNext<R>(batch: seq<R>, owner: R -> WorkerId, me: WorkerId, i: nat,
                     before: map<WorkerId, seq<R>>, was: map<WorkerId, seq<R>>, peers: map<WorkerId, seq<R>>,
                     w: WorkerId)
    requires i < |batch| && SplitTo(batch, owner, me, i, before, was, w)
    requires var d := owner(batch[i]); peers == if d == me then was else was[d := SentTo(was, d) + [batch[i]]]
    ensures SplitTo(batch, owner, me, i + 1, before, peers, w)
  {
    OwnedNext(batch, owner, w, i);
  }

  /** Every record of the batch goes to exactly one place, its owner's, in order;
      nothing is left exactly if no record is local. */
  method FastForward<R>(batch: seq<R>, owner: R -> WorkerId, me: WorkerId, before: map<WorkerId, seq<R>>)
    returns (remaining: Option<seq<R>>, peers: map<WorkerId, seq<R>>)
    ensures remaining == if OwnedBy(batch, owner, me) == [] then None else Some(OwnedBy(batch, owner, me))
    ensures forall w: WorkerId :: SplitTo(batch, owner, me, |batch|, before, peers, w)
  {
    var rest: seq<R> := [];
    peers := before;
    for i := 0 to |batch|
      invariant rest == OwnedBy(batch[..i], owner, me)
      invariant forall w: WorkerId :: SplitTo(batch, owner, me, i, before, peers, w)
    {
      var r, d := batch[i], owner(batch[i]);
      ghost var was, n := peers, i + 1;
      if d == me {
        rest := rest + [r];
      } else {
        peers := peers[d := SentTo(peers, d) + [r]];
      }
      OwnedNext(batch, owner, me, i);
      forall w: WorkerId ensures SplitTo(batch, owner, me, n, before, peers, w) {
        SplitNext(batch, owner, me, i, before, was, peers, w);
      }
    }
    assert batch[..|batch|] == batch;
    remaining := if rest == [] then None else Some(rest);
  }

  ghost predicate Ascending(pos: seq<nat>) {
    forall i, j :: 0 <= i < j < |pos| ==> pos[i] < pos[j]
  }

  /** The positions of a batch with owner w. */
  ghost predicate PositionsOf<R>(batch: seq<R>, owner: R -> WorkerId, w: WorkerId, pos: seq<nat>) {
    && Ascending(pos) && (forall j | 0 <= j < |pos| :: pos[j] < |batch| && owner(batch[pos[j]]) == w)
    && (forall i: nat | i < |batch| && owner(batch[i]) == w :: i in pos)
  }

  ghost predicate AtPositions<R>(part: seq<R>, batch: seq<R>, pos: seq<nat>) {
    |part| == |pos| && forall j | 0 <= j < |pos| :: pos[j] < |batch| && part[j] == batch[pos[j]]
  }

  lemma PositionsNext<R>(batch: seq<R>, owner: R -> WorkerId, w: WorkerId, pos: seq<nat>)
    requires batch != [] && PositionsOf(batch[..|batch| - 1], owner, w, pos)
    ensures var n := |batch| - 1;
            PositionsOf(batch, owner, w, if owner(batch[n]) == w then pos + [n] else pos)
  {
    var n := |batch| - 1;
    var init, pos' := batch[..n], if owner(batch[n]) == w then pos + [n] else pos;
    forall i: nat | i < |batch| && owner(batch[i]) == w ensures i in pos' {
      if i < n { assert init[i] == batch[i] && i in pos; }
    }
  }

  lemma PartNext<R>(part: seq<R>, batch: seq<R>, pos: seq<nat>)
    requires batch != [] && AtPositions(part, batch[..|batch| - 1], pos)
    ensures AtPositions(part, batch, pos) && AtPositions(part + [batch[|batch| - 1]], batch, pos + [|batch| - 1])
  {
  }

  /** A part has the records of its owner in the order of the batch: one after the
      other those at the positions with this owner. */
  lemma {:induction false} PartsInOrder<R>(batch: seq<R>, owner: R -> WorkerId, w: WorkerId) returns (pos: seq<nat>)
    ensures PositionsOf(batch, owner, w, pos) && AtPositions(OwnedBy(batch, owner, w), batch, pos)
  {
    if batch == [] {
      pos := [];
    } else {
      var n := |batch| - 1;
      var init := PartsInOrder(batch[..n], owner, w);
      PositionsNext(batch, owner, w, init);
      PartNext(OwnedBy(batch[..n], owner, w), batch, init);
      pos := if owner(batch[n]) == w then init + [n] else init;
      assert owner(batch[n]) != w ==> OwnedBy(batch, owner, w) == OwnedBy(batch[..n], owner, w);
    }
  }

  /** The parts are a partition: every record of the batch is in the part of its
      owner, as often as in the batch, and in no other. */
  lemma {:induction false} PartsPartition<R>(batch: seq<R>, owner: R -> WorkerId, w: WorkerId, r: R)
    ensures multiset(OwnedBy(batch, owner, w))[r] == if owner(r) == w then multiset(batch)[r] else 0
  {
    if batch != [] {
      var n := |batch| - 1;
      PartsPartition(batch[..n], owner, w, r);
      assert batch == batch[..n] + [batch[n]];
    }
  }
}

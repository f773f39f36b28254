/**
 The even partition policy: the first partition gives each worker its share of
 the buckets, and a repartition deals buckets from donors to recipients until
 every worker has its new share.
 */
module EvenPartition {
  import opened Types
  import opened StateService
  import opened RecordFlow
  import opened Coordinator
  import opened BucketDealing

  /** Buckets of the i-th of n workers. */
  function Share(total: nat, n: nat, i: nat): nat
    requires n > 0
  {
    total / n + if i < total % n then 1 else 0
  }

  /** Every bucket has one of the workers, and each worker has its share. */
  ghost predicate Even(t: Table, workers: seq<WorkerId>) {
    && workers != [] && Distinct(workers)
    && (forall b | 0 <= b < |t| :: t[b] in workers)
    && (forall i | 0 <= i < |workers| :: Load(t, workers[i]) == Share(|t|, |workers|, i))
  }

  /** In an even table no worker has two buckets more than another, and the first
      ones have the larger shares. */
  lemma EvenWithinOne(t: Table, workers: seq<WorkerId>, i: nat, j: nat)
    requires Even(t, workers) && i < j < |workers|
    ensures Load(t, workers[j]) <= Load(t, workers[i]) <= Load(t, workers[j]) + 1
  {
    assert Load(t, workers[i]) == Share(|t|, |workers|, i) && Load(t, workers[j]) == Share(|t|, |workers|, j);
  }

  /** The shares of all workers are all buckets. */
  lemma {:induction false} SharesSum(workers: seq<WorkerId>, total: nat, desired: map<WorkerId, nat>, k: nat)
    requires k <= |workers| && workers != []
    requires forall i | 0 <= i < |workers| :: workers[i] in desired && desired[workers[i]] == Share(total, |workers|, i)
    ensures var n := |workers|;
            Sum(workers[k..], Amounts(desired)) == (n - k) * (total / n) + if k < total % n then total % n - k else 0
    decreases |workers| - k
  {
    var n := |workers|;
    if k < n {
      SharesSum(workers, total, desired, k + 1);
      assert workers[k..][1..] == workers[k + 1..];
      assert (n - k) * (total / n) == (n - (k + 1)) * (total / n) + total / n;
    }
  }

  lemma Division(total: nat, n: nat)
    requires n > 0
    ensures n * (total / n) + total % n == total
  {
  }

  lemma AllShares(workers: seq<WorkerId>, total: nat, desired: map<WorkerId, nat>)
    requires workers != []
    requires forall i | 0 <= i < |workers| :: workers[i] in desired && desired[workers[i]] == Share(total, |workers|, i)
    ensures Sum(workers, Amounts(desired)) == total
  {
    SharesSum(workers, total, desired, 0);
    assert workers[0..] == workers;
    Division(total, |workers|);
  }

  // ----------------------------------------------------------- preparation

  /** Every bucket is in the list of its owner, in order and once. */
  ghost predicate Grouped(t: Table, existing: seq<WorkerId>, owned: Stacks) {
    && Distinct(existing) && (forall w: WorkerId :: w in existing <==> w in owned)
    && (forall w: WorkerId | w in owned :: StackAt(t, owned, owned, w) && owned[w] != [])
    && (forall b: Bucket | b < |t| :: Offers(owned, t[b], b))
    && (forall w: WorkerId :: Size(owned, w) == Load(t, w))
  }

  function Appended(owned: Stacks, w: WorkerId, b: Bucket): Stacks {
    owned[w := (if w in owned then owned[w] else []) + [b]]
  }

  lemma StackNext(t: Table, owned: Stacks, i: nat, v: WorkerId)
    requires i < |t| && v in Appended(owned, t[i], i) && (v in owned ==> StackAt(t[..i], owned, owned, v))
    ensures StackAt(t[..i + 1], Appended(owned, t[i], i), Appended(owned, t[i], i), v)
  {
    assert v in owned ==> forall k | 0 <= k < |owned[v]| :: owned[v][k] in owned[v];
  }

  lemma GroupedNext(t: Table, existing: seq<WorkerId>, owned: Stacks, i: nat)
    requires i < |t| && Grouped(t[..i], existing, owned)
    ensures Grouped(t[..i + 1], if t[i] in owned then existing else existing + [t[i]], Appended(owned, t[i], i))
  {
    var w, t' := t[i], t[..i + 1];
    var owned' := Appended(owned, w, i);
    assert t'[..i] == t[..i];
    forall v: WorkerId | v in owned' ensures StackAt(t', owned', owned', v) && owned'[v] != [] {
      StackNext(t, owned, i, v);
    }
    forall v: WorkerId ensures Size(owned', v) == Load(t', v) {
      LoadLast(t', v);
      assert Size(owned, v) == Load(t[..i], v);
    }
    forall b: Bucket | b < i + 1 ensures Offers(owned', t'[b], b) {
      assert b < i ==> Offers(owned, t[..i][b], b);
    }
  }

  method Group(t: Table) returns (existing: seq<WorkerId>, owned: Stacks)
    ensures Grouped(t, existing, owned)
  {
    existing, owned := [], map[];
    for i := 0 to |t|
      invariant Grouped(t[..i], existing, owned)
    {
      GroupedNext(t, existing, owned, i);
      var w := t[i];
      if w !in owned {
        existing := existing + [w];
      }
      owned := Appended(owned, w, i);
    }
    assert t[..|t|] == t;
  }

  ghost predicate DesiredOk(total: nat, updated: seq<WorkerId>, desired: map<WorkerId, nat>) {
    && updated != [] && Distinct(updated)
    && (forall w: WorkerId :: w in desired <==> w in updated)
    && (forall i | 0 <= i < |updated| :: updated[i] in desired && desired[updated[i]] == Share(total, |updated|, i))
  }

  method DesiredCounts(total: nat, updated: seq<WorkerId>) returns (desired: map<WorkerId, nat>)
    requires updated != [] && Distinct(updated)
    ensures DesiredOk(total, updated, desired)
  {
    desired := map[];
    for i := 0 to |updated|
      invariant forall w: WorkerId :: w in desired <==> w in updated[..i]
      invariant forall j | 0 <= j < i :: updated[j] in desired && desired[updated[j]] == Share(total, |updated|, j)
    {
      desired := desired[updated[i] := Share(total, |updated|, i)];
      assert updated[..i + 1] == updated[..i] + [updated[i]];
    }
  }

  method IsDistinct(ws: seq<WorkerId>) returns (ok: bool)
    ensures ok <==> Distinct(ws)
  {
    var seen: set<WorkerId> := {};
    for i := 0 to |ws|
      invariant seen == Elements(ws[..i]) && Distinct(ws[..i])
    {
      if ws[i] in seen {
        var j :| 0 <= j < i && ws[j] == ws[i];
        return false;
      }
      seen := seen + {ws[i]};
      assert ws[..i + 1] == ws[..i] + [ws[i]];
    }
    assert ws[..|ws|] == ws;
    ok := true;
  }

  ghost predicate Before(r: seq<WorkerId>, x: WorkerId, y: WorkerId) {
    exists a, b :: 0 <= a < b < |r| && r[a] == x && r[b] == y
  }

  /** What is in both lists comes in the same order. */
  ghost predicate SameOrder(ws: seq<WorkerId>, r: seq<WorkerId>) {
    forall i, j | 0 <= i < j < |ws| && ws[i] in r && ws[j] in r :: Before(r, ws[i], ws[j])
  }

  lemma OrderNext(ws: seq<WorkerId>, r: seq<WorkerId>, w: WorkerId)
    requires SameOrder(ws, r) && w !in ws
    ensures SameOrder(ws + [w], r + [w])
  {
    var ws', r' := ws + [w], r + [w];
    forall i, j | 0 <= i < j < |ws'| && ws'[i] in r' && ws'[j] in r' ensures Before(r', ws'[i], ws'[j]) {
      assert ws'[i] == ws[i] && ws[i] in r;
      if j < |ws| {
        assert Before(r, ws[i], ws[j]);
        var a, b :| 0 <= a < b < |r| && r[a] == ws[i] && r[b] == ws[j];
        assert r'[a] == ws'[i] && r'[b] == ws'[j];
      } else {
        var a :| 0 <= a < |r| && r[a] == ws[i];
        assert r'[a] == ws'[i] && r'[|r|] == ws'[j];
      }
    }
  }

  lemma OrderKept(ws: seq<WorkerId>, r: seq<WorkerId>, w: WorkerId)
    requires SameOrder(ws, r) && w !in r
    ensures SameOrder(ws + [w], r)
  {
    var ws' := ws + [w];
    forall i, j | 0 <= i < j < |ws'| && ws'[i] in r && ws'[j] in r ensures Before(r, ws'[i], ws'[j]) {
      assert ws'[i] == ws[i] && ws'[j] == ws[j];
    }
  }

  /** The workers of a list that are not in the set, in order. */
  method Others(ws: seq<WorkerId>, known: set<WorkerId>) returns (r: seq<WorkerId>)
    requires Distinct(ws)
    ensures Distinct(r) && forall w: WorkerId :: w in r <==> w in ws && w !in known
    ensures SameOrder(ws, r)
  {
    r := [];
    for i := 0 to |ws|
      invariant Distinct(r) && forall w: WorkerId :: w in r <==> w in ws[..i] && w !in known
      invariant SameOrder(ws[..i], r)
    {
      assert ws[..i + 1] == ws[..i] + [ws[i]];
      if ws[i] !in known {
        OrderNext(ws[..i], r, ws[i]);
        r := r + [ws[i]];
      } else {
        OrderKept(ws[..i], r, ws[i]);
      }
    }
    assert ws[..|ws|] == ws;
  }

  /** All owned buckets, counted by their owners. */
  lemma OwnersSum(t: Table, existing: seq<WorkerId>, owned: Stacks)
    requires Grouped(t, existing, owned)
    ensures Sum(existing, Loads(t)) == |t|
  {
    LoadsCount(t, existing);
    forall b: Bucket | b < |t| ensures t[b] in existing {
      assert Offers(owned, t[b], b);
    }
    CountAll(t, existing);
  }

  lemma SumParts(ws: seq<WorkerId>, us: seq<WorkerId>, vs: seq<WorkerId>, f: WorkerId -> nat)
    requires Distinct(ws) && Distinct(us) && Distinct(vs)
    requires forall w: WorkerId :: w in ws <==> w in us || w in vs
    requires forall w: WorkerId :: !(w in us && w in vs)
    ensures Sum(ws, f) == Sum(us, f) + Sum(vs, f)
  {
    assert Elements(ws) == Elements(us + vs);
    forall i, j | 0 <= i < |us| && 0 <= j < |vs| ensures us[i] != vs[j] {
      assert us[i] in us && vs[j] in vs;
    }
    assert Distinct(us + vs);
    SumOrder(ws, us + vs, f);
    SumAppend(us, vs, f);
  }

  /** No worker has less than its new share. */
  ghost predicate EnoughToGive(t: Table, updated: seq<WorkerId>)
    requires updated != []
  {
    forall i | 0 <= i < |updated| && updated[i] in t :: Share(|t|, |updated|, i) <= Load(t, updated[i])
  }

  /** No worker has more than its new share. */
  ghost predicate RoomToTake(t: Table, updated: seq<WorkerId>)
    requires updated != []
  {
    forall i | 0 <= i < |updated| :: Load(t, updated[i]) <= Share(|t|, |updated|, i)
  }

  lemma GroupedOwners(t: Table, existing: seq<WorkerId>, owned: Stacks)
    requires Grouped(t, existing, owned)
    ensures Elements(existing) == Elements(t) && (t != [] ==> existing != [])
  {
    assert t != [] ==> t[0] in t;
    forall w: WorkerId ensures w in existing <==> w in t {
      InOwned(t, existing, owned, w);
    }
  }

  lemma GiveIff(t: Table, updated: seq<WorkerId>, desired: map<WorkerId, nat>, existing: seq<WorkerId>, owned: Stacks)
    requires Grouped(t, existing, owned) && DesiredOk(|t|, updated, desired)
    requires forall w: WorkerId | w in existing :: w in updated
    ensures EnoughToGive(t, updated) <==> forall w: WorkerId | w in owned :: Amount(desired, w) <= |owned[w]|
  {
    GroupedOwners(t, existing, owned);
    if EnoughToGive(t, updated) {
      forall w: WorkerId | w in owned ensures Amount(desired, w) <= |owned[w]| {
        assert w in existing && w in Elements(t);
        var i :| 0 <= i < |updated| && updated[i] == w;
        assert Size(owned, w) == Load(t, w);
      }
    }
    if forall w: WorkerId | w in owned :: Amount(desired, w) <= |owned[w]| {
      forall i | 0 <= i < |updated| && updated[i] in t ensures Share(|t|, |updated|, i) <= Load(t, updated[i]) {
        assert updated[i] in Elements(t);
        assert Size(owned, updated[i]) == Load(t, updated[i]);
      }
    }
  }

  lemma RoomIff(t: Table, updated: seq<WorkerId>, desired: map<WorkerId, nat>, existing: seq<WorkerId>, owned: Stacks)
    requires Grouped(t, existing, owned) && DesiredOk(|t|, updated, desired)
    ensures RoomToTake(t, updated) <==> forall w: WorkerId | w in updated :: Size(owned, w) <= Amount(desired, w)
  {
    forall w: WorkerId ensures Size(owned, w) == Load(t, w) {}
    if forall w: WorkerId | w in updated :: Size(owned, w) <= Amount(desired, w) {
      forall i | 0 <= i < |updated| ensures Load(t, updated[i]) <= Share(|t|, |updated|, i) {
        assert updated[i] in updated;
      }
    }
  }

  // -------------------------------------------------------------- scale-up

  /** A worker offers what exceeds its new share, from the end of its list. */
  ghost predicate ExcessAt(owned: Stacks, desired: map<WorkerId, nat>, all: Stacks, w: WorkerId)
    requires w in owned
  {
    && Amount(desired, w) <= |owned[w]|
    && (if Amount(desired, w) == |owned[w]| then w !in all else w in all && all[w] == owned[w][Amount(desired, w)..])
  }

  ghost predicate ExcessOf(ws: seq<WorkerId>, owned: Stacks, desired: map<WorkerId, nat>, all: Stacks) {
    && (forall w: WorkerId | w in all :: w in ws)
    && (forall w: WorkerId | w in ws :: w in owned && ExcessAt(owned, desired, all, w))
  }

  lemma ExcessNext(ws: seq<WorkerId>, owned: Stacks, desired: map<WorkerId, nat>, all: Stacks, w: WorkerId)
    requires ExcessOf(ws, owned, desired, all) && w !in ws && w in owned && Amount(desired, w) <= |owned[w]|
    ensures var n := Amount(desired, w);
            ExcessOf(ws + [w], owned, desired, if n < |owned[w]| then all[w := owned[w][n..]] else all)
  {
    var n := Amount(desired, w);
    var all' := if n < |owned[w]| then all[w := owned[w][n..]] else all;
    forall v: WorkerId | v in ws + [w] ensures v in owned && ExcessAt(owned, desired, all', v) {
      assert v != w ==> v in ws && ExcessAt(owned, desired, all, v);
    }
  }

  /** Refuses iff some worker has less than its new share. */
  method Excess(existing: seq<WorkerId>, owned: Stacks, desired: map<WorkerId, nat>) returns (ok: bool, all: Stacks)
    requires Distinct(existing) && forall w: WorkerId :: w in existing <==> w in owned
    ensures ok <==> forall w: WorkerId | w in owned :: Amount(desired, w) <= |owned[w]|
    ensures ok ==> ExcessOf(existing, owned, desired, all)
  {
    all := map[];
    for i := 0 to |existing|
      invariant ExcessOf(existing[..i], owned, desired, all)
    {
      var w := existing[i];
      var n := Amount(desired, w);
      assert w in existing;
      if n > |owned[w]| {
        return false, all;
      }
      ExcessNext(existing[..i], owned, desired, all, w);
      assert existing[..i + 1] == existing[..i] + [w];
      if n < |owned[w]| {
        all := all[w := owned[w][n..]];
      }
    }
    assert existing[..|existing|] == existing;
    assert forall w: WorkerId | w in owned :: ExcessAt(owned, desired, all, w);
    ok := true;
  }

  lemma ExcessStack(t: Table, owned: Stacks, desired: map<WorkerId, nat>, all: Stacks, w: WorkerId)
    requires w in owned && w in all && ExcessAt(owned, desired, all, w) && StackAt(t, owned, owned, w)
    ensures StackAt(t, all, all, w) && Size(all, w) + Amount(desired, w) == Size(owned, w)
  {
    assert forall b: Bucket | b in all[w] :: b in owned[w];
  }

  /** What the existing workers have to give is what the new ones need. */
  lemma UpBalanced(t: Table, updated: seq<WorkerId>, desired: map<WorkerId, nat>, existing: seq<WorkerId>,
                   owned: Stacks,
                   added: seq<WorkerId>, all: Stacks)
    requires Grouped(t, existing, owned) && DesiredOk(|t|, updated, desired) && Distinct(added)
    requires forall w: WorkerId | w in existing :: w in updated
    requires forall w: WorkerId :: w in added <==> w in updated && w !in owned.Keys
    requires ExcessOf(existing, owned, desired, all)
    ensures Sum(added, Amounts(desired)) == Sum(existing, Sizes(all))
  {
    AllShares(updated, |t|, desired);
    SumParts(updated, existing, added, Amounts(desired));
    OwnersSum(t, existing, owned);
    forall w: WorkerId | w in existing ensures Sizes(all)(w) + Amounts(desired)(w) == Loads(t)(w) {
      assert ExcessAt(owned, desired, all, w) && Size(owned, w) == Load(t, w);
    }
    SumAdd(existing, Sizes(all), Amounts(desired), Loads(t));
  }

  lemma UpEven(t: Table, updated: seq<WorkerId>, desired: map<WorkerId, nat>, existing: seq<WorkerId>, owned: Stacks,
               added: seq<WorkerId>, all: Stacks, next: Table)
    requires Grouped(t, existing, owned) && DesiredOk(|t|, updated, desired)
    requires forall w: WorkerId | w in existing :: w in updated
    requires forall w: WorkerId :: w in added <==> w in updated && w !in owned.Keys
    requires ExcessOf(existing, owned, desired, all)
    requires Dealt(t, all, added, desired, next)
    ensures Rebalanced(t, updated, next)
  {
    forall b: Bucket | b < |next| ensures next[b] in updated && (next[b] != t[b] ==> next[b] !in t) {
      assert Offers(owned, t[b], b);
      assert next[b] in t ==> next[b] !in added by { InOwned(t, existing, owned, next[b]); }
    }
    forall i | 0 <= i < |updated| ensures Load(next, updated[i]) == Share(|next|, |updated|, i) {
      var w := updated[i];
      assert Load(next, w) + Size(all, w) == Load(t, w) + Amount(Given(desired, added), w);
      assert Size(owned, w) == Load(t, w);
      assert w in owned ==> ExcessAt(owned, desired, all, w);
    }
  }

  lemma InOwned(t: Table, existing: seq<WorkerId>, owned: Stacks, w: WorkerId)
    requires Grouped(t, existing, owned)
    ensures w in t <==> w in owned
  {
    if w in t {
      var b: Bucket :| b < |t| && t[b] == w;
      assert Offers(owned, t[b], b);
    }
    if w in owned {
      assert StackAt(t, owned, owned, w) && owned[w][0] in owned[w];
    }
  }

  /** A bucket moves only away from a removed worker or to a new one. */
  ghost predicate OnlyNeeded(t: Table, updated: seq<WorkerId>, next: Table) {
    |next| == |t| && forall b: Bucket | b < |t| && next[b] != t[b] :: t[b] !in updated || next[b] !in t
  }

  /** The new table is even, and only what had to move has moved. */
  ghost predicate Rebalanced(t: Table, updated: seq<WorkerId>, next: Table) {
    Even(next, updated) && OnlyNeeded(t, updated, next)
  }

  /** In a scale-up buckets go to new workers only. */
  lemma GoesToNew(t: Table, updated: seq<WorkerId>, next: Table, changes: OwnerChanges, d: WorkerId, w: WorkerId)
    requires ChangesOk(t, next, changes) && Rebalanced(t, updated, next) && Transfers(changes, d, w) > 0
    requires forall x: WorkerId | x in t :: x in updated
    ensures w in updated && w !in t
  {
    assert ListAt(changes, d, w);
    var b := changes[d][w][0];
    assert ChangeAt(t, next, changes, d, w, b) && Changes(changes, d, w, b);
    assert t[b] in t;
  }

  lemma UpSpread(t: Table, updated: seq<WorkerId>, next: Table, changes: OwnerChanges, added: seq<WorkerId>)
    requires ChangesOk(t, next, changes) && Rebalanced(t, updated, next)
    requires forall x: WorkerId | x in t :: x in updated
    requires forall w: WorkerId | w in updated && w !in t :: w in added
    requires SameOrder(updated, added) && Spread(added, changes)
    ensures Spread(updated, changes)
  {
    forall i, j, e: WorkerId | 0 <= i < j < |updated| && Transfers(changes, e, updated[j]) > 0
      ensures FairTo(changes, updated[i], e)
    {
      GoesToNew(t, updated, next, changes, e, updated[j]);
      forall d: WorkerId ensures Transfers(changes, d, updated[i]) <= Transfers(changes, e, updated[i]) + 1 {
        if Transfers(changes, d, updated[i]) > 0 {
          GoesToNew(t, updated, next, changes, d, updated[i]);
          assert Before(added, updated[i], updated[j]);
          var a, b :| 0 <= a < b < |added| && added[a] == updated[i] && added[b] == updated[j];
          assert FairTo(changes, added[a], e);
        }
      }
    }
  }

  method ScaleUp(t: Table, updated: seq<WorkerId>, desired: map<WorkerId, nat>, existing: seq<WorkerId>, owned: Stacks)
    returns (ok: bool, next: Table, changes: OwnerChanges)
    requires Grouped(t, existing, owned) && DesiredOk(|t|, updated, desired) && existing != []
    requires forall w: WorkerId | w in existing :: w in updated
    ensures ok <==> EnoughToGive(t, updated)
    ensures ok ==> Rebalanced(t, updated, next) && ChangesOk(t, next, changes) && Spread(updated, changes)
  {
    next, changes := t, map[];
    var added := Others(updated, owned.Keys);
    var all: Stacks;
    ok, all := Excess(existing, owned, desired);
    GiveIff(t, updated, desired, existing, owned);
    if ok {
      UpBalanced(t, updated, desired, existing, owned, added, all);
      forall d: WorkerId | d in all ensures StackAt(t, all, all, d) {
        ExcessStack(t, owned, desired, all, d);
      }
      forall d: WorkerId ensures DonorAt(all, existing, added, d) {}
      next, changes := Distribute(t, all, existing, added, desired);
      UpEven(t, updated, desired, existing, owned, added, all, next);
      forall w: WorkerId ensures w in t <==> w in owned { InOwned(t, existing, owned, w); }
      UpSpread(t, updated, next, changes, added);
    }
  }

  // ------------------------------------------------------------ scale-down

  /** Refuses iff some remaining worker has more than its new share. */
  method Needs(updated: seq<WorkerId>, owned: Stacks, desired: map<WorkerId, nat>)
    returns (ok: bool, needs: map<WorkerId, nat>)
    requires Distinct(updated)
    ensures ok <==> forall w: WorkerId | w in updated :: Size(owned, w) <= Amount(desired, w)
    ensures ok ==> forall w: WorkerId | w in updated :: Size(owned, w) + Amount(needs, w) == Amount(desired, w)
  {
    needs := map[];
    for i := 0 to |updated|
      invariant forall w: WorkerId | w in needs :: w in updated[..i]
      invariant forall w: WorkerId | w in updated[..i] :: Size(owned, w) + Amount(needs, w) == Amount(desired, w)
    {
      var w := updated[i];
      assert updated[..i + 1] == updated[..i] + [w];
      if Amount(desired, w) < Size(owned, w) {
        return false, needs;
      }
      if Size(owned, w) < Amount(desired, w) {
        needs := needs[w := Amount(desired, w) - Size(owned, w)];
      }
    }
    assert updated[..|updated|] == updated;
    ok := true;
  }

  /** The buckets of the removed workers are what the others need. */
  lemma DownBalanced(t: Table, updated: seq<WorkerId>, desired: map<WorkerId, nat>, existing: seq<WorkerId>,
                     owned: Stacks,
                     removed: seq<WorkerId>, all: Stacks, needs: map<WorkerId, nat>)
    requires Grouped(t, existing, owned) && DesiredOk(|t|, updated, desired) && Distinct(removed)
    requires forall w: WorkerId | w in updated :: w in existing
    requires forall w: WorkerId :: w in removed <==> w in existing && w !in updated
    requires forall w: WorkerId | w in removed :: w in all && w in owned && all[w] == owned[w]
    requires forall w: WorkerId | w in updated :: Size(owned, w) + Amount(needs, w) == Amount(desired, w)
    ensures Sum(updated, Amounts(needs)) == Sum(removed, Sizes(all))
  {
    AllShares(updated, |t|, desired);
    OwnersSum(t, existing, owned);
    SumParts(existing, updated, removed, Loads(t));
    forall w: WorkerId ensures Size(owned, w) == Load(t, w) {}
    SumSame(removed, Sizes(all), Loads(t));
    SumAdd(updated, Loads(t), Amounts(needs), Amounts(desired));
  }

  lemma DownEven(t: Table, updated: seq<WorkerId>, desired: map<WorkerId, nat>, existing: seq<WorkerId>, owned: Stacks,
                 removed: seq<WorkerId>, all: Stacks, needs: map<WorkerId, nat>, next: Table)
    requires Grouped(t, existing, owned) && DesiredOk(|t|, updated, desired)
    requires forall w: WorkerId :: w in removed <==> w in existing && w !in updated
    requires forall w: WorkerId :: w in all <==> w in removed
    requires forall w: WorkerId | w in removed :: w in owned && all[w] == owned[w]
    requires forall w: WorkerId | w in updated :: Size(owned, w) + Amount(needs, w) == Amount(desired, w)
    requires Dealt(t, all, updated, needs, next)
    ensures Rebalanced(t, updated, next)
  {
    forall b: Bucket | b < |next| ensures next[b] in updated && (next[b] != t[b] ==> t[b] !in updated) {
      assert Offers(owned, t[b], b);
    }
    forall i | 0 <= i < |updated| ensures Load(next, updated[i]) == Share(|next|, |updated|, i) {
      var w := updated[i];
      assert Load(next, w) + Size(all, w) == Load(t, w) + Amount(Given(needs, updated), w);
      assert Size(owned, w) == Load(t, w);
    }
  }

  method ScaleDown(t: Table, updated: seq<WorkerId>, desired: map<WorkerId, nat>, existing: seq<WorkerId>,
                   owned: Stacks)
    returns (ok: bool, next: Table, changes: OwnerChanges)
    requires Grouped(t, existing, owned) && DesiredOk(|t|, updated, desired)
    requires (forall w: WorkerId | w in updated :: w in existing)
    requires exists w: WorkerId :: w in existing && w !in updated
    ensures ok <==> RoomToTake(t, updated)
    ensures ok ==> Rebalanced(t, updated, next) && ChangesOk(t, next, changes) && Spread(updated, changes)
  {
    next, changes := t, map[];
    var removed := Others(existing, Elements(updated));
    var all: Stacks := map w: WorkerId | w in removed :: owned[w];
    var needs: map<WorkerId, nat>;
    ok, needs := Needs(updated, owned, desired);
    RoomIff(t, updated, desired, existing, owned);
    if ok {
      DownBalanced(t, updated, desired, existing, owned, removed, all, needs);
      forall d: WorkerId | d in all ensures StackAt(t, all, all, d) {
        assert StackAt(t, owned, owned, d);
      }
      forall d: WorkerId ensures DonorAt(all, removed, updated, d) {}
      next, changes := Distribute(t, all, removed, updated, needs);
      DownEven(t, updated, desired, existing, owned, removed, all, needs, next);
    }
  }

  // ----------------------------------------------------------- repartition

  lemma Larger(s: seq<Bucket>, x: Bucket)
    requires StrictlyIncreasing(s) && forall y: Bucket | y in s :: y < x
    ensures StrictlyIncreasing(s + [x])
  {
    assert forall i | 0 <= i < |s| :: s[i] in s;
  }

  function Inserted(s: seq<Bucket>, x: Bucket): (r: seq<Bucket>)
    requires StrictlyIncreasing(s) && x !in s
    ensures StrictlyIncreasing(r) && |r| == |s| + 1 && forall y: Bucket :: y in r <==> y in s || y == x
  {
    if s == [] || s[|s| - 1] < x then s + [x]
    else
      var init, last := s[..|s| - 1], s[|s| - 1];
      assert s == init + [last] && last in s;
      Larger(Inserted(init, x), last);
      Inserted(init, x) + [last]
  }

  function Sorted(s: seq<Bucket>): (r: seq<Bucket>)
    requires Distinct(s)
    ensures StrictlyIncreasing(r) && |r| == |s| && forall y: Bucket :: y in r <==> y in s
  {
    if s == [] then []
    else
      assert s == s[..|s| - 1] + [s[|s| - 1]];
      Inserted(Sorted(s[..|s| - 1]), s[|s| - 1])
  }

  ghost predicate AllDistinct(changes: OwnerChanges) {
    forall src: WorkerId, dst: WorkerId | src in changes && dst in changes[src] :: Distinct(changes[src][dst])
  }

  function SortedChanges(changes: OwnerChanges): OwnerChanges
    requires AllDistinct(changes)
  {
    map src: WorkerId | src in changes :: map dst: WorkerId | dst in changes[src] :: Sorted(changes[src][dst])
  }

  lemma ChangesDistinct(t: Table, next: Table, changes: OwnerChanges)
    requires ChangesOk(t, next, changes)
    ensures AllDistinct(changes)
  {
    forall src: WorkerId, dst: WorkerId | src in changes && dst in changes[src] ensures Distinct(changes[src][dst]) {
      assert ListAt(changes, src, dst);
    }
  }

  lemma SortedIsDiff(t: Table, next: Table, changes: OwnerChanges)
    requires |next| == |t| && ChangesOk(t, next, changes) && AllDistinct(changes)
    ensures IsDiff(t, next, SortedChanges(changes))
  {
    var sorted := SortedChanges(changes);
    forall src: WorkerId, dst: WorkerId | src in sorted && dst in sorted[src]
      ensures sorted[src][dst] != [] && StrictlyIncreasing(sorted[src][dst])
    {
      assert ListAt(changes, src, dst);
    }
    forall src: WorkerId, dst: WorkerId, b: Bucket
      ensures Changes(sorted, src, dst, b) <==> b < |t| && t[b] == src && next[b] == dst && src != dst
    {
      assert ChangeAt(t, next, changes, src, dst, b);
    }
  }

  lemma SortedSpread(workers: seq<WorkerId>, changes: OwnerChanges)
    requires AllDistinct(changes) && Spread(workers, changes)
    ensures Spread(workers, SortedChanges(changes))
  {
    var sorted := SortedChanges(changes);
    assert forall d: WorkerId, w: WorkerId :: Transfers(sorted, d, w) == Transfers(changes, d, w);
    forall i, j, e: WorkerId | 0 <= i < j < |workers| && Transfers(sorted, e, workers[j]) > 0
      ensures FairTo(sorted, workers[i], e)
    {
      assert FairTo(changes, workers[i], e);
    }
  }

  /** The repartitions the policy does not refuse: workers are added and none
      has less than its new share, or workers are removed and none of the others
      has more. */
  ghost predicate Accepts(t: Table, updated: seq<WorkerId>) {
    && 0 < |updated| <= |t| && Distinct(updated)
    && (|| (Elements(t) < Elements(updated) && EnoughToGive(t, updated))
        || (Elements(updated) < Elements(t) && RoomToTake(t, updated)))
  }

  lemma AddedIff(t: Table, updated: seq<WorkerId>, existing: seq<WorkerId>)
    requires Distinct(updated) && Distinct(existing) && Elements(existing) == Elements(t)
    ensures |existing| < |updated| && Within(existing, Elements(updated)) <==> Elements(t) < Elements(updated)
    ensures |updated| < |existing| && Within(updated, Elements(existing)) <==> Elements(updated) < Elements(t)
  {
    DistinctSize(updated);
    DistinctSize(existing);
    WithinIff(existing, updated);
    WithinIff(updated, existing);
    if Elements(existing) <= Elements(updated) {
      SubsetSize(Elements(existing), Elements(updated));
    }
    if Elements(updated) <= Elements(existing) {
      SubsetSize(Elements(updated), Elements(existing));
    }
  }

  predicate Within(ws: seq<WorkerId>, known: set<WorkerId>) {
    forall w: WorkerId | w in ws :: w in known
  }

  lemma WithinIff(ws: seq<WorkerId>, vs: seq<WorkerId>)
    ensures Within(ws, Elements(vs)) <==> Elements(ws) <= Elements(vs)
  {
    if Elements(ws) <= Elements(vs) {
      assert forall w: WorkerId | w in ws :: w in Elements(ws);
    }
  }

  /** The scale-up or scale-down, after the worker list was checked. */
  method Rescale(t: Table, updated: seq<WorkerId>) returns (ok: bool, next: Table, changes: OwnerChanges)
    requires 0 < |updated| <= |t| && Distinct(updated)
    ensures ok <==> Accepts(t, updated)
    ensures ok ==> Rebalanced(t, updated, next) && ChangesOk(t, next, changes) && Spread(updated, changes)
  {
    ok, next, changes := false, t, map[];
    var existing, owned := Group(t);
    var desired := DesiredCounts(|t|, updated);
    GroupedOwners(t, existing, owned);
    AddedIff(t, updated, existing);
    if |updated| > |existing| && Within(existing, Elements(updated)) {
      ok, next, changes := ScaleUp(t, updated, desired, existing, owned);
    } else if |updated| < |existing| && Within(updated, Elements(existing)) {
      SomeRemoved(updated, existing);
      ok, next, changes := ScaleDown(t, updated, desired, existing, owned);
    }
  }

  lemma SomeRemoved(updated: seq<WorkerId>, existing: seq<WorkerId>)
    requires Elements(updated) < Elements(existing)
    ensures exists w: WorkerId :: w in existing && w !in updated
  {
    var w: WorkerId :| w in Elements(existing) && w !in Elements(updated);
  }

  /** RePartitionV2: refused exactly when Accepts does not hold, although the
      source has more checks on the way. */
  method RePartition(t: Table, updated: seq<WorkerId>) returns (r: Option<(Table, OwnerChanges)>)
    ensures r.Some? <==> Accepts(t, updated)
    ensures r.Some? ==> Rebalanced(t, updated, r.value.0) && IsDiff(t, r.value.0, r.value.1)
    ensures r.Some? ==> Spread(updated, r.value.1)
  {
    if updated == [] || |t| < |updated| {
      return None;
    }
    var distinct := IsDistinct(updated);
    if !distinct {
      return None;
    }
    var ok, next, changes := Rescale(t, updated);
    if !ok {
      return None;
    }
    ChangesDistinct(t, next, changes);
    SortedIsDiff(t, next, changes);
    SortedSpread(updated, changes);
    r := Some((next, SortedChanges(changes)));
  }

  // ------------------------------------------------------- fewest movements

  /** Buckets that have different owners in the two tables. */
  ghost function Moved(t: Table, next: Table): nat
    requires |next| == |t|
  {
    if t == [] then 0
    else Moved(t[..|t| - 1], next[..|t| - 1]) + if t[|t| - 1] != next[|t| - 1] then 1 else 0
  }

  /** What goes to the added workers, or comes from the removed ones, moves. */
  lemma {:induction false} MovedAtLeast(t: Table, next: Table, added: seq<WorkerId>, removed: seq<WorkerId>)
    requires |next| == |t|
    requires forall b: Bucket | b < |t| :: t[b] !in added && next[b] !in removed
    ensures Moved(t, next) >= CountIn(next, added) && Moved(t, next) >= CountIn(t, removed)
  {
    if t != [] {
      MovedAtLeast(t[..|t| - 1], next[..|t| - 1], added, removed);
    }
  }

  lemma {:induction false} MovedAdded(t: Table, next: Table, added: seq<WorkerId>)
    requires |next| == |t|
    requires forall b: Bucket | b < |t| && t[b] != next[b] :: next[b] in added
    ensures Moved(t, next) <= CountIn(next, added)
  {
    if t != [] {
      MovedAdded(t[..|t| - 1], next[..|t| - 1], added);
    }
  }

  lemma {:induction false} MovedRemoved(t: Table, next: Table, removed: seq<WorkerId>)
    requires |next| == |t|
    requires forall b: Bucket | b < |t| && t[b] != next[b] :: t[b] in removed
    ensures Moved(t, next) <= CountIn(t, removed)
  {
    if t != [] {
      MovedRemoved(t[..|t| - 1], next[..|t| - 1], removed);
    }
  }

  lemma {:induction false} Listed(ws: seq<WorkerId>, known: set<WorkerId>) returns (r: seq<WorkerId>)
    requires Distinct(ws)
    ensures Distinct(r) && forall w: WorkerId :: w in r <==> w in ws && w !in known
  {
    if ws == [] {
      r := [];
    } else {
      var rest := Listed(ws[1..], known);
      r := if ws[0] in known then rest else [ws[0]] + rest;
      assert ws == [ws[0]] + ws[1..];
    }
  }

  lemma {:induction false} Owners(t: Table) returns (r: seq<WorkerId>)
    ensures Distinct(r) && Elements(r) == Elements(t)
  {
    if t == [] {
      r := [];
    } else {
      var init, last := t[..|t| - 1], t[|t| - 1];
      assert t == init + [last];
      r := Owners(init);
      assert forall w: WorkerId :: w in r <==> w in Elements(init);
      if last !in r {
        r := r + [last];
      }
    }
  }

  lemma FewestUp(t: Table, updated: seq<WorkerId>, next: Table, other: Table)
    requires Rebalanced(t, updated, next) && Elements(t) < Elements(updated)
    requires |other| == |t| && Even(other, updated)
    ensures Moved(t, next) <= Moved(t, other)
  {
    var added := Listed(updated, Elements(t));
    forall b: Bucket | b < |t| ensures t[b] !in added && (t[b] != next[b] ==> next[b] in added) {
      assert t[b] in Elements(t) && t[b] in Elements(updated);
    }
    MovedAdded(t, next, added);
    LoadsCount(next, added);
    LoadsCount(other, added);
    EvenSame(next, other, updated, added);
    MovedAtLeast(t, other, added, []);
  }

  lemma FewestDown(t: Table, updated: seq<WorkerId>, next: Table, other: Table)
    requires Rebalanced(t, updated, next) && Elements(updated) < Elements(t)
    requires |other| == |t| && Even(other, updated)
    ensures Moved(t, next) <= Moved(t, other)
  {
    var owners := Owners(t);
    var removed := Listed(owners, Elements(updated));
    forall b: Bucket | b < |t| ensures other[b] !in removed && (t[b] != next[b] ==> t[b] in removed) {
      assert t[b] in Elements(t) && t[b] in Elements(owners);
      assert next[b] in Elements(updated) && next[b] in Elements(t);
      assert other[b] in Elements(updated);
    }
    MovedRemoved(t, next, removed);
    MovedAtLeast(t, other, [], removed);
  }

  /** No even table for the new workers is reached with fewer movements. */
  lemma FewestMovements(t: Table, updated: seq<WorkerId>, next: Table, other: Table)
    requires Accepts(t, updated) && Rebalanced(t, updated, next)
    requires |other| == |t| && Even(other, updated)
    ensures Moved(t, next) <= Moved(t, other)
  {
    if Elements(t) < Elements(updated) {
      FewestUp(t, updated, next, other);
    } else {
      FewestDown(t, updated, next, other);
    }
  }

  lemma EvenSame(next: Table, other: Table, updated: seq<WorkerId>, ws: seq<WorkerId>)
    requires Even(next, updated) && Even(other, updated) && |next| == |other|
    requires forall w: WorkerId | w in ws :: w in updated
    ensures Sum(ws, Loads(next)) == Sum(ws, Loads(other))
  {
    forall w: WorkerId | w in ws ensures Loads(next)(w) == Loads(other)(w) {
      var i :| 0 <= i < |updated| && updated[i] == w;
    }
    SumSame(ws, Loads(next), Loads(other));
  }

  // ------------------------------------------------------------------ runs

  lemma Multiples(a: nat, b: nat, x: nat, y: nat)
    ensures a <= b && x <= y ==> a * x <= b * y
  {
    assert b * y == a * x + a * (y - x) + (b - a) * y;
  }

  /** With more workers no share gets larger. */
  lemma ShareShrinks(total: nat, n: nat, m: nat, i: nat)
    requires 0 < n <= m
    ensures Share(total, m, i) <= Share(total, n, i)
  {
    var q, r, p, s := total / n, total % n, total / m, total % m;
    Division(total, n);
    Division(total, m);
    assert n * (q + 1) == n * q + n;
    Multiples(n, m, q + 1, p);
    Multiples(n, m, q, q);
  }

  lemma ShareSome(total: nat, n: nat, i: nat)
    requires 0 < n <= total
    ensures Share(total, n, i) > 0
  {
    Division(total, n);
    assert n * (total / n) > 0;
  }

  /** In an even table the owners are the workers. */
  lemma EvenOwners(t: Table, workers: seq<WorkerId>)
    requires Even(t, workers) && |workers| <= |t|
    ensures Elements(t) == Elements(workers)
  {
    forall w: WorkerId ensures w in t <==> w in workers {
      if w in workers {
        var i :| 0 <= i < |workers| && workers[i] == w;
        ShareSome(|t|, |workers|, i);
        assert multiset(t)[w] > 0;
      }
    }
  }

  datatype Request = Up(added: seq<WorkerId>) | Down(target: nat)

  ghost predicate ValidRequest(total: nat, workers: seq<WorkerId>, request: Request) {
    match request
    case Up(added) => added != [] && Distinct(workers + added) && |workers| + |added| <= total
    case Down(target) => 0 < target < |workers|
  }

  /** prepareReconfiguration: new workers come last and the last ones go. */
  function Updated(workers: seq<WorkerId>, request: Request): seq<WorkerId> {
    match request
    case Up(added) => workers + added
    case Down(target) => if target <= |workers| then workers[..target] else workers
  }

  lemma AcceptsUp(t: Table, workers: seq<WorkerId>, added: seq<WorkerId>)
    requires Even(t, workers) && ValidRequest(|t|, workers, Up(added))
    ensures Accepts(t, workers + added)
  {
    var updated := workers + added;
    EvenOwners(t, workers);
    assert updated[|workers|] == added[0] && added[0] in updated;
    assert forall j | 0 <= j < |workers| :: workers[j] == updated[j] != added[0];
    assert Elements(t) < Elements(updated) by {
      assert forall w: WorkerId | w in workers :: w in updated;
      assert added[0] in Elements(updated) && added[0] !in Elements(workers);
    }
    forall i | 0 <= i < |updated| && updated[i] in t ensures Share(|t|, |updated|, i) <= Load(t, updated[i]) {
      assert updated[i] in Elements(workers);
      var j :| 0 <= j < |workers| && workers[j] == updated[i];
      assert updated[j] == updated[i] && j == i;
      ShareShrinks(|t|, |workers|, |updated|, i);
    }
  }

  lemma AcceptsDown(t: Table, workers: seq<WorkerId>, target: nat)
    requires Even(t, workers) && |workers| <= |t| && ValidRequest(|t|, workers, Down(target))
    ensures Accepts(t, workers[..target])
  {
    var updated := workers[..target];
    EvenOwners(t, workers);
    assert workers[target] in Elements(workers) && workers[target] !in updated;
    assert forall w: WorkerId | w in updated :: w in workers;
    assert Elements(updated) < Elements(t);
    forall i | 0 <= i < |updated| ensures Load(t, updated[i]) <= Share(|t|, |updated|, i) {
      assert updated[i] == workers[i];
      ShareShrinks(|t|, |updated|, |workers|, i);
    }
  }

  /** A repartition gives the table a reconfiguration of the protocol needs. */
  lemma CanStartWith(f: Flow, updated: seq<WorkerId>, next: Table)
    requires f.stage == Idle && Accepts(f.table, updated) && Rebalanced(f.table, updated, next)
    ensures CanStart(f, next, Elements(updated))
  {
    if Elements(f.table) < Elements(updated) {
      EvenOwners(next, updated);
    } else {
      var w: WorkerId :| w in Elements(f.table) && w !in Elements(updated);
      EvenOwners(next, updated);
    }
  }

  /** The tables of successive reconfigurations. A refused one would end the
      run, so nothing is said about the table after it. */
  ghost predicate PolicyStep(t: Table, workers: seq<WorkerId>, request: Request, t': Table, workers': seq<WorkerId>) {
    && ValidRequest(|t|, workers, request)
    && workers' == Updated(workers, request)
    && (Accepts(t, workers') ==> Rebalanced(t, workers', t'))
  }

  ghost predicate PolicyRun(tables: seq<Table>, lists: seq<seq<WorkerId>>, requests: seq<Request>) {
    && |tables| == |lists| == |requests| + 1
    && Even(tables[0], lists[0]) && |lists[0]| <= |tables[0]|
    && forall i | 0 <= i < |requests| :: PolicyStep(tables[i], lists[i], requests[i], tables[i + 1], lists[i + 1])
  }

  /** Over any run the table stays even and no valid request is refused. */
  lemma {:induction false} NeverRefused(tables: seq<Table>, lists: seq<seq<WorkerId>>, requests: seq<Request>, n: nat)
    requires PolicyRun(tables, lists, requests) && n <= |requests|
    ensures Even(tables[n], lists[n]) && |lists[n]| <= |tables[n]|
    ensures n < |requests| ==> Accepts(tables[n], lists[n + 1])
  {
    if n > 0 {
      NeverRefused(tables, lists, requests, n - 1);
      assert PolicyStep(tables[n - 1], lists[n - 1], requests[n - 1], tables[n], lists[n]);
    }
    if n < |requests| {
      assert PolicyStep(tables[n], lists[n], requests[n], tables[n + 1], lists[n + 1]);
      match requests[n]
      case Up(added) => AcceptsUp(tables[n], lists[n], added);
      case Down(target) => AcceptsDown(tables[n], lists[n], target);
    }
  }

  lemma FiveBuckets()
    ensures Even([1, 1, 2, 2, 3], [1, 2, 3])
  {
    var t: Table, workers: seq<WorkerId> := [1, 1, 2, 2, 3], [1, 2, 3];
    assert multiset(t) == multiset{1, 1, 2, 2, 3};
    assert Share(5, 3, 0) == 2 && Share(5, 3, 1) == 2 && Share(5, 3, 2) == 1;
  }

  /** With the same workers in another order the policy can refuse. */
  lemma OrderMatters()
    ensures var t, updated := [1, 1, 2, 2, 3], [3, 1, 2, 4];
            && Even(t, [1, 2, 3]) && Distinct(updated) && |updated| <= |t| && Elements(t) < Elements(updated)
            && !Accepts(t, updated)
  {
    var t: Table, updated: seq<WorkerId> := [1, 1, 2, 2, 3], [3, 1, 2, 4];
    FiveBuckets();
    assert updated[0] in t && Load(t, updated[0]) == 1 && Share(5, 4, 0) == 2;
    assert 4 in Elements(updated) && 4 !in Elements(t);
  }

  // ------------------------------------------------------- first partition

  /** One block for each of the first k workers. */
  function Blocks(total: nat, workers: seq<WorkerId>, k: nat): Table
    requires k <= |workers|
  {
    if k == 0 then [] else Blocks(total, workers, k - 1) + Repeat(workers[k - 1], Share(total, |workers|, k - 1))
  }

  lemma {:induction false} BlocksLength(total: nat, workers: seq<WorkerId>, k: nat, q: nat, m: nat)
    requires k <= |workers| && workers != [] && q == total / |workers| && m == total % |workers|
    ensures |Blocks(total, workers, k)| == k * q + if k < m then k else m
  {
    if k > 0 {
      BlocksLength(total, workers, k - 1, q, m);
      assert |Blocks(total, workers, k)| == |Blocks(total, workers, k - 1)| + q + if k - 1 < m then 1 else 0;
      assert k * q == (k - 1) * q + q;
    }
  }

  lemma AllBlocks(total: nat, workers: seq<WorkerId>)
    requires workers != []
    ensures |Blocks(total, workers, |workers|)| == total
  {
    BlocksLength(total, workers, |workers|, total / |workers|, total % |workers|);
    Division(total, |workers|);
  }

  lemma {:induction false} RepeatedLoad(w: WorkerId, n: nat, x: WorkerId)
    ensures Load(Repeat(w, n), x) == if x == w then n else 0
  {
    if n > 0 {
      RepeatedLoad(w, n - 1, x);
      assert Repeat(w, n) == Repeat(w, n - 1) + [w];
    }
  }

  lemma {:induction false} BlocksOwners(total: nat, workers: seq<WorkerId>, k: nat, b: nat)
    requires k <= |workers| && b < |Blocks(total, workers, k)|
    ensures Blocks(total, workers, k)[b] in workers
  {
    if b < |Blocks(total, workers, k - 1)| {
      BlocksOwners(total, workers, k - 1, b);
    }
  }

  lemma {:induction false} BlocksLoad(total: nat, workers: seq<WorkerId>, k: nat, i: nat)
    requires k <= |workers| && Distinct(workers) && i < |workers|
    ensures Load(Blocks(total, workers, k), workers[i]) == if i < k then Share(total, |workers|, i) else 0
  {
    if k > 0 {
      BlocksLoad(total, workers, k - 1, i);
      RepeatedLoad(workers[k - 1], Share(total, |workers|, k - 1), workers[i]);
    }
  }

  /** The first partition is even. */
  lemma BlocksEven(total: nat, workers: seq<WorkerId>)
    requires Distinct(workers) && workers != []
    ensures Even(Blocks(total, workers, |workers|), workers) && |Blocks(total, workers, |workers|)| == total
  {
    var t := Blocks(total, workers, |workers|);
    AllBlocks(total, workers);
    forall b | 0 <= b < |t| ensures t[b] in workers {
      BlocksOwners(total, workers, |workers|, b);
    }
    forall i | 0 <= i < |workers| ensures Load(t, workers[i]) == Share(|t|, |workers|, i) {
      BlocksLoad(total, workers, |workers|, i);
    }
  }

  lemma {:induction false} BlocksFit(total: nat, workers: seq<WorkerId>, j: nat, k: nat)
    requires j <= k <= |workers|
    ensures |Blocks(total, workers, j)| <= |Blocks(total, workers, k)|
    decreases k - j
  {
    if j < k {
      BlocksFit(total, workers, j, k - 1);
    }
  }

  /** GenerateBucketsV2. */
  method GenerateBuckets(total: nat, workers: seq<WorkerId>) returns (r: Option<Table>)
    ensures r.Some? <==> 0 < |workers| <= total
    ensures r.Some? ==> r.value == Blocks(total, workers, |workers|)
  {
    if |workers| == 0 || total < |workers| {
      return None;
    }
    var buckets := new WorkerId[total];
    var start := 0;
    AllBlocks(total, workers);
    for i := 0 to |workers|
      invariant start == |Blocks(total, workers, i)| <= total && buckets[..start] == Blocks(total, workers, i)
    {
      BlocksFit(total, workers, i + 1, |workers|);
      start := FillBlock(buckets, start, workers[i], Share(total, |workers|, i));
    }
    assert buckets[..] == buckets[..start];
    r := Some(buckets[..]);
  }

  method FillBlock(buckets: array<WorkerId>, start: nat, w: WorkerId, size: nat) returns (end: nat)
    requires start + size <= buckets.Length
    modifies buckets
    ensures end == start + size && buckets[..end] == old(buckets[..start]) + Repeat(w, size)
  {
    end := start + size;
    for j := start to end
      invariant buckets[..j] == old(buckets[..start]) + Repeat(w, j - start)
    {
      buckets[j] := w;
      assert buckets[..j + 1] == buckets[..j] + [w];
      assert Repeat(w, j + 1 - start) == Repeat(w, j - start) + [w];
    }
  }

  /** updateKeyPartition with this policy: the owner history and the table of the
      coordinator follow the repartition. */
  method UpdatePartition(c: Coordinator, updated: seq<WorkerId>) returns (changes: Option<OwnerChanges>)
    requires |c.history| == |c.partition|
    modifies c
    ensures changes.Some? <==> old(Accepts(c.partition, updated))
    ensures changes.None? ==> c.partition == old(c.partition) && c.history == old(c.history)
    ensures changes.Some? ==>
              && |c.history| == |c.partition| && Rebalanced(old(c.partition), updated, c.partition)
              && IsDiff(old(c.partition), c.partition, changes.value)
              && forall b | 0 <= b < |c.partition| ::
                   c.history[b] ==
                     old(c.history[b]) + if c.partition[b] != old(c.partition)[b] then {c.partition[b]} else {}
  {
    var r := RePartition(c.partition, updated);
    if r.None? {
      return None;
    }
    c.UpdateKeyPartition(r.value.0, r.value.1);
    changes := Some(r.value.1);
  }
}

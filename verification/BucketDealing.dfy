/**
 How many buckets the workers have, and the round robin that deals the buckets
 of donors to recipients.
 */
module BucketDealing {
  import opened Types
  import opened RecordFlow
  import opened Coordinator

  type Stacks = map<WorkerId, seq<Bucket>>

  function Load(t: Table, w: WorkerId): nat {
    multiset(t)[w]
  }

  // ------------------------------------------------------------------ sums

  ghost function Sum(ws: seq<WorkerId>, f: WorkerId -> nat): nat {
    if ws == [] then 0 else f(ws[0]) + Sum(ws[1..], f)
  }

  function Amount(m: map<WorkerId, nat>, w: WorkerId): nat {
    if w in m then m[w] else 0
  }

  function Size(stacks: Stacks, w: WorkerId): nat {
    if w in stacks then |stacks[w]| else 0
  }

  ghost function Loads(t: Table): WorkerId -> nat { w => Load(t, w) }
  ghost function Amounts(m: map<WorkerId, nat>): WorkerId -> nat { w => Amount(m, w) }
  ghost function Sizes(stacks: Stacks): WorkerId -> nat { w => Size(stacks, w) }

  lemma {:induction false} SumSame(ws: seq<WorkerId>, f: WorkerId -> nat, g: WorkerId -> nat)
    requires forall w: WorkerId | w in ws :: f(w) == g(w)
    ensures Sum(ws, f) == Sum(ws, g)
  {
    if ws != [] {
      SumSame(ws[1..], f, g);
    }
  }

  lemma {:induction false} SumAdd(ws: seq<WorkerId>, f: WorkerId -> nat, g: WorkerId -> nat, h: WorkerId -> nat)
    requires forall w: WorkerId | w in ws :: f(w) + g(w) == h(w)
    ensures Sum(ws, f) + Sum(ws, g) == Sum(ws, h)
  {
    if ws != [] {
      SumAdd(ws[1..], f, g, h);
    }
  }

  lemma {:induction false} SumAppend(ws: seq<WorkerId>, vs: seq<WorkerId>, f: WorkerId -> nat)
    ensures Sum(ws + vs, f) == Sum(ws, f) + Sum(vs, f)
  {
    if ws == [] {
      assert ws + vs == vs;
    } else {
      assert (ws + vs)[1..] == ws[1..] + vs;
      SumAppend(ws[1..], vs, f);
    }
  }

  /** One more for one of the workers. */
  lemma {:induction false} SumBump(ws: seq<WorkerId>, f: WorkerId -> nat, g: WorkerId -> nat, x: WorkerId)
    requires Distinct(ws)
    requires forall w: WorkerId | w in ws :: g(w) == f(w) + if w == x then 1 else 0
    ensures Sum(ws, g) == Sum(ws, f) + if x in ws then 1 else 0
  {
    if ws != [] {
      SumBump(ws[1..], f, g, x);
    }
  }

  function Without(ws: seq<WorkerId>, i: nat): seq<WorkerId>
    requires i < |ws|
  {
    ws[..i] + ws[i + 1..]
  }

  lemma SumWithout(ws: seq<WorkerId>, i: nat, f: WorkerId -> nat)
    requires i < |ws|
    ensures Sum(ws, f) == f(ws[i]) + Sum(Without(ws, i), f)
  {
    assert ws == ws[..i] + ws[i..];
    SumAppend(ws[..i], ws[i..], f);
    assert ws[i..][1..] == ws[i + 1..];
    SumAppend(ws[..i], ws[i + 1..], f);
  }

  /** The order of the workers does not matter. */
  lemma {:induction false} SumOrder(ws: seq<WorkerId>, vs: seq<WorkerId>, f: WorkerId -> nat)
    requires Distinct(ws) && Distinct(vs) && Elements(ws) == Elements(vs)
    ensures Sum(ws, f) == Sum(vs, f)
  {
    if ws == [] {
      assert Elements(ws) == {};
      HasElements(vs);
    } else {
      assert ws[0] in Elements(ws);
      var i :| 0 <= i < |vs| && vs[i] == ws[0];
      SumWithout(vs, i, f);
      OrderRest(ws, vs, i);
      SumOrder(ws[1..], Without(vs, i), f);
    }
  }

  lemma HasElements(ws: seq<WorkerId>)
    ensures ws != [] ==> Elements(ws) != {}
  {
    if ws != [] {
      assert ws[0] in Elements(ws);
    }
  }

  lemma OrderRest(ws: seq<WorkerId>, vs: seq<WorkerId>, i: nat)
    requires Distinct(ws) && Distinct(vs) && Elements(ws) == Elements(vs) && ws != [] && i < |vs| && vs[i] == ws[0]
    ensures Distinct(Without(vs, i)) && Elements(ws[1..]) == Elements(Without(vs, i))
  {
    forall w: WorkerId ensures w in ws[1..] <==> w in Without(vs, i) {
      assert w in ws <==> w in Elements(vs);
      assert w in ws[1..] <==> w in ws && w != ws[0];
      assert w in Without(vs, i) <==> w in vs && w != vs[i];
    }
  }

  /** Buckets whose owner is in the list. */
  ghost function CountIn(t: Table, ws: seq<WorkerId>): nat {
    if t == [] then 0 else CountIn(t[..|t| - 1], ws) + if t[|t| - 1] in ws then 1 else 0
  }

  lemma LoadLast(t: Table, w: WorkerId)
    requires t != []
    ensures Load(t, w) == Load(t[..|t| - 1], w) + if t[|t| - 1] == w then 1 else 0
  {
    assert t == t[..|t| - 1] + [t[|t| - 1]];
  }

  lemma {:induction false} LoadsCount(t: Table, ws: seq<WorkerId>)
    requires Distinct(ws)
    ensures Sum(ws, Loads(t)) == CountIn(t, ws)
  {
    if t == [] {
      SumSame(ws, Loads(t), Amounts(map[]));
      NoSum(ws);
    } else {
      var t' := t[..|t| - 1];
      LoadsCount(t', ws);
      forall w: WorkerId | w in ws ensures Loads(t)(w) == Loads(t')(w) + if w == t[|t| - 1] then 1 else 0 {
        LoadLast(t, w);
      }
      SumBump(ws, Loads(t'), Loads(t), t[|t| - 1]);
    }
  }

  lemma {:induction false} NoSum(ws: seq<WorkerId>)
    ensures Sum(ws, Amounts(map[])) == 0
  {
    if ws != [] {
      NoSum(ws[1..]);
    }
  }

  lemma {:induction false} CountAll(t: Table, ws: seq<WorkerId>)
    requires forall b | 0 <= b < |t| :: t[b] in ws
    ensures CountIn(t, ws) == |t|
  {
    if t != [] {
      CountAll(t[..|t| - 1], ws);
    }
  }

  // --------------------------------------------------------------- dealing

  /** The donors' buckets that are still to be dealt, the table so far, the
      changes so far and the donor whose turn it is. */
  datatype Deal = Deal(turn: nat, left: Stacks, next: Table, changes: OwnerChanges)

  predicate Offers(stacks: Stacks, d: WorkerId, b: Bucket) {
    d in stacks && b in stacks[d]
  }

  /** A donor offers buckets it owns, and has an initial part of them left. */
  ghost predicate StackAt(t: Table, all: Stacks, left: Stacks, d: WorkerId)
    requires d in all && d in left
  {
    && left[d] <= all[d] && StrictlyIncreasing(all[d])
    && forall b: Bucket | b in all[d] :: b < |t| && t[b] == d
  }

  /** A bucket that was taken has a recipient, any other its owner. */
  ghost predicate BucketAt(t: Table, all: Stacks, left: Stacks, recipients: seq<WorkerId>, next: Table, b: Bucket)
    requires b < |t| == |next|
  {
    if Offers(all, t[b], b) && !Offers(left, t[b], b) then next[b] in recipients else next[b] == t[b]
  }

  ghost predicate TableOk(t: Table, all: Stacks, left: Stacks, recipients: seq<WorkerId>, next: Table) {
    && |next| == |t| && left.Keys == all.Keys
    && (forall d: WorkerId | d in all :: StackAt(t, all, left, d))
    && (forall b: Bucket | b < |t| :: BucketAt(t, all, left, recipients, next, b))
  }

  /** What was given is what is missing at the donors. */
  ghost predicate LoadAt(t: Table, all: Stacks, left: Stacks, given: map<WorkerId, nat>, next: Table, w: WorkerId) {
    Load(next, w) + Size(all, w) == Load(t, w) + Size(left, w) + Amount(given, w)
  }

  ghost predicate LoadsOk(t: Table, all: Stacks, left: Stacks, given: map<WorkerId, nat>, next: Table) {
    forall w: WorkerId :: LoadAt(t, all, left, given, next, w)
  }

  /** The bucket is listed iff it has a new owner. */
  ghost predicate ChangeAt(t: Table, next: Table, changes: OwnerChanges, src: WorkerId, dst: WorkerId, b: Bucket) {
    Changes(changes, src, dst, b) <==> b < |t| && |next| == |t| && t[b] == src && next[b] == dst && src != dst
  }

  ghost predicate ListAt(changes: OwnerChanges, src: WorkerId, dst: WorkerId) {
    src in changes && dst in changes[src] ==> changes[src][dst] != [] && Distinct(changes[src][dst])
  }

  ghost predicate ChangesOk(t: Table, next: Table, changes: OwnerChanges) {
    && (forall src: WorkerId, dst: WorkerId :: ListAt(changes, src, dst))
    && (forall src: WorkerId, dst: WorkerId, b: Bucket :: ChangeAt(t, next, changes, src, dst, b))
  }

  function Recorded(changes: OwnerChanges, src: WorkerId, dst: WorkerId, b: Bucket): OwnerChanges {
    var m: map<WorkerId, seq<Bucket>> := if src in changes then changes[src] else map[];
    changes[src := m[dst := (if dst in m then m[dst] else []) + [b]]]
  }

  function Popped(stacks: Stacks, d: WorkerId): Stacks
    requires d in stacks && stacks[d] != []
  {
    stacks[d := stacks[d][..|stacks[d]| - 1]]
  }

  function Plus(given: map<WorkerId, nat>, w: WorkerId, n: nat): map<WorkerId, nat> {
    given[w := Amount(given, w) + n]
  }

  lemma ChangesNext(t: Table, next: Table, changes: OwnerChanges, b: Bucket, r: WorkerId)
    requires ChangesOk(t, next, changes) && |next| == |t| && b < |t| && next[b] == t[b] && r != t[b]
    ensures ChangesOk(t, next[b := r], Recorded(changes, t[b], r, b))
  {
    var next', changes' := next[b := r], Recorded(changes, t[b], r, b);
    forall src: WorkerId, dst: WorkerId ensures ListAt(changes', src, dst) {
      assert ListAt(changes, src, dst) && ChangeAt(t, next, changes, src, dst, b);
    }
    forall src: WorkerId, dst: WorkerId, x: Bucket ensures ChangeAt(t, next', changes', src, dst, x) {
      assert ChangeAt(t, next, changes, src, dst, x);
      assert Changes(changes', src, dst, x) <==> Changes(changes, src, dst, x) || (src == t[b] && dst == r && x == b);
    }
  }

  lemma LoadNext(next: Table, b: Bucket, r: WorkerId, w: WorkerId)
    requires b < |next| && next[b] != r
    ensures Load(next[b := r], w) ==
            if w == next[b] then Load(next, w) - 1 else if w == r then Load(next, w) + 1 else Load(next, w)
    ensures Load(next, next[b]) > 0
  {
    assert multiset(next[b := r]) == multiset(next) - multiset{next[b]} + multiset{r};
    assert next[b] in next;
  }

  lemma LoadsNext(t: Table, all: Stacks, left: Stacks, given: map<WorkerId, nat>, next: Table, d: WorkerId, b: Bucket,
                  r: WorkerId, k: nat)
    requires LoadsOk(t, all, left, Plus(given, r, k), next)
    requires d in left && left[d] != [] && b < |next| && next[b] == d && r != d
    ensures LoadsOk(t, all, Popped(left, d), Plus(given, r, k + 1), next[b := r])
  {
    var left', given', next' := Popped(left, d), Plus(given, r, k + 1), next[b := r];
    forall w: WorkerId ensures LoadAt(t, all, left', given', next', w) {
      LoadNext(next, b, r, w);
      assert LoadAt(t, all, left, Plus(given, r, k), next, w);
    }
  }

  lemma OffersNext(t: Table, all: Stacks, left: Stacks, d: WorkerId, x: Bucket)
    requires d in all && d in left && StackAt(t, all, left, d) && left[d] != [] && x < |t|
    ensures Offers(Popped(left, d), t[x], x) <==> Offers(left, t[x], x) && x != left[d][|left[d]| - 1]
  {
    var n := |left[d]|;
    var rest := left[d][..n - 1];
    assert left[d] == rest + [left[d][n - 1]];
    assert forall i | 0 <= i < n - 1 :: rest[i] == all[d][i] < all[d][n - 1] == left[d][n - 1];
    assert t[x] != d ==> x != left[d][n - 1] by {
      assert left[d][n - 1] == all[d][n - 1];
      assert all[d][n - 1] in all[d];
    }
  }

  lemma TableNext(t: Table, all: Stacks, left: Stacks, recipients: seq<WorkerId>, next: Table, d: WorkerId, r: WorkerId)
    requires TableOk(t, all, left, recipients, next) && d in left && left[d] != [] && r in recipients
    ensures var b := left[d][|left[d]| - 1];
            b < |t| && t[b] == d && next[b] == d && TableOk(t, all, Popped(left, d), recipients, next[b := r])
  {
    var b := left[d][|left[d]| - 1];
    assert StackAt(t, all, left, d);
    assert b in all[d] && b in left[d];
    assert BucketAt(t, all, left, recipients, next, b);
    var left', next' := Popped(left, d), next[b := r];
    forall e: WorkerId | e in all ensures StackAt(t, all, left', e) {
      assert StackAt(t, all, left, e);
    }
    forall x: Bucket | x < |t| ensures BucketAt(t, all, left', recipients, next', x) {
      assert BucketAt(t, all, left, recipients, next, x);
      OffersNext(t, all, left, d, x);
    }
  }

  lemma SizesNext(order: seq<WorkerId>, left: Stacks, d: WorkerId)
    requires Distinct(order) && d in order && d in left && left[d] != []
    ensures Sum(order, Sizes(Popped(left, d))) + 1 == Sum(order, Sizes(left))
  {
    SumBump(order, Sizes(Popped(left, d)), Sizes(left), d);
  }

  lemma {:induction false} SomeLeft(order: seq<WorkerId>, left: Stacks)
    requires Sum(order, Sizes(left)) > 0
    ensures exists g :: 0 <= g < |order| && Size(left, order[g]) > 0
  {
    if Size(left, order[0]) == 0 {
      SomeLeft(order[1..], left);
      var g :| 0 <= g < |order[1..]| && Size(left, order[1..][g]) > 0;
      assert order[g + 1] == order[1..][g];
    }
  }

  lemma {:induction false} NoneLeft(order: seq<WorkerId>, left: Stacks)
    requires Sum(order, Sizes(left)) == 0
    ensures forall w: WorkerId | w in order :: Size(left, w) == 0
  {
    if order != [] {
      NoneLeft(order[1..], left);
    }
  }

  ghost predicate DealOk(t: Table, all: Stacks, recipients: seq<WorkerId>, given: map<WorkerId, nat>, deal: Deal) {
    && TableOk(t, all, deal.left, recipients, deal.next)
    && LoadsOk(t, all, deal.left, given, deal.next)
    && ChangesOk(t, deal.next, deal.changes)
  }

  /** The donors take turns; no recipient is a donor. */
  ghost predicate DonorAt(all: Stacks, order: seq<WorkerId>, recipients: seq<WorkerId>, d: WorkerId) {
    && (d in all ==> d in order)
    && (d in order ==> d !in recipients)
  }

  ghost predicate TurnsOk(all: Stacks, order: seq<WorkerId>, recipients: seq<WorkerId>) {
    Distinct(order) && forall d: WorkerId :: DonorAt(all, order, recipients, d)
  }

  lemma DealNext(t: Table, all: Stacks, order: seq<WorkerId>, recipients: seq<WorkerId>, given: map<WorkerId, nat>,
                 k: nat, deal: Deal, d: WorkerId, r: WorkerId, turn: nat)
    requires TurnsOk(all, order, recipients) && DealOk(t, all, recipients, Plus(given, r, k), deal)
    requires d in deal.left && deal.left[d] != [] && r in recipients
    ensures var b := deal.left[d][|deal.left[d]| - 1];
            b < |deal.next| && DealOk(t, all, recipients, Plus(given, r, k + 1),
                                      Deal(turn, Popped(deal.left, d), deal.next[b := r],
                                          Recorded(deal.changes, d, r, b)))
    ensures Sum(order, Sizes(Popped(deal.left, d))) + 1 == Sum(order, Sizes(deal.left))
  {
    var b := deal.left[d][|deal.left[d]| - 1];
    TableNext(t, all, deal.left, recipients, deal.next, d, r);
    assert DonorAt(all, order, recipients, d);
    LoadsNext(t, all, deal.left, given, deal.next, d, b, r, k);
    ChangesNext(t, deal.next, deal.changes, b, r);
    SizesNext(order, deal.left, d);
  }

  /** A donor that has something left, if anybody has. */
  ghost function Donor(order: seq<WorkerId>, left: Stacks): (g: nat)
    ensures Sum(order, Sizes(left)) > 0 ==> g < |order| && Size(left, order[g]) > 0
  {
    if Sum(order, Sizes(left)) > 0 then
      SomeLeft(order, left);
      var g :| 0 <= g < |order| && Size(left, order[g]) > 0;
      g
    else 0
  }

  /** Turns until that donor has its turn. */
  ghost function Wait(order: seq<WorkerId>, left: Stacks, turn: nat): nat {
    var g := Donor(order, left);
    if turn <= g then g - turn else if turn <= |order| then g + |order| - turn else 0
  }

  method NextTurn(turn: nat, n: nat) returns (r: nat)
    requires turn < n
    ensures r == if turn + 1 == n then 0 else turn + 1
  {
    r := (turn + 1) % n;
  }

  lemma WaitLess(order: seq<WorkerId>, left: Stacks, turn: nat)
    requires turn < |order| && Size(left, order[turn]) == 0 && Sum(order, Sizes(left)) > 0
    ensures Wait(order, left, if turn + 1 == |order| then 0 else turn + 1) < Wait(order, left, turn)
  {
    assert Donor(order, left) != turn;
  }

  /** Buckets that src gave to dst. */
  function Transfers(changes: OwnerChanges, src: WorkerId, dst: WorkerId): nat {
    if src in changes && dst in changes[src] then |changes[src][dst]| else 0
  }

  /** The donor whose turn it was gave r one bucket if it had one. */
  ghost predicate TurnTaken(order: seq<WorkerId>, deal: Deal, r: WorkerId, deal': Deal, taken: nat)
    requires deal.turn < |order|
  {
    var d := order[deal.turn];
    && deal'.turn == (if deal.turn + 1 == |order| then 0 else deal.turn + 1)
    && taken == (if Size(deal.left, d) > 0 then 1 else 0)
    && (forall w: WorkerId :: Size(deal.left, w) == Size(deal'.left, w) + if w == d then taken else 0)
    && (forall w: WorkerId, x: WorkerId ::
          Transfers(deal'.changes, w, x) == Transfers(deal.changes, w, x) + if w == d && x == r then taken else 0)
  }

  /** The dealing after the turn of one donor. */
  ghost predicate AfterTurn(order: seq<WorkerId>, deal: Deal, r: WorkerId, deal': Deal, taken: nat)
    requires deal.turn < |order|
  {
    var d := order[deal.turn];
    && deal'.turn == (if deal.turn + 1 == |order| then 0 else deal.turn + 1)
    && if d in deal.left && deal.left[d] != [] then
         && taken == 1 && deal'.left == Popped(deal.left, d)
         && deal'.changes == Recorded(deal.changes, d, r, deal.left[d][|deal.left[d]| - 1])
       else
         taken == 0 && deal'.left == deal.left && deal'.changes == deal.changes
  }

  lemma TurnIsTaken(order: seq<WorkerId>, deal: Deal, r: WorkerId, deal': Deal, taken: nat)
    requires deal.turn < |order| && AfterTurn(order, deal, r, deal', taken)
    ensures TurnTaken(order, deal, r, deal', taken)
  {
    var d := order[deal.turn];
    if taken == 1 {
      forall w: WorkerId, x: WorkerId
        ensures Transfers(deal'.changes, w, x) == Transfers(deal.changes, w, x) + if w == d && x == r then 1 else 0
      {
        TransfersNext(deal.changes, d, r, deal.left[d][|deal.left[d]| - 1], w, x);
      }
    }
  }

  lemma TransfersNext(changes: OwnerChanges, src: WorkerId, dst: WorkerId, b: Bucket, w: WorkerId, x: WorkerId)
    ensures Transfers(Recorded(changes, src, dst, b), w, x) ==
            Transfers(changes, w, x) + if w == src && x == dst then 1 else 0
  {
  }

  /** The donor whose turn it is gives its last bucket. */
  method Give(ghost t: Table, ghost all: Stacks, order: seq<WorkerId>, ghost recipients: seq<WorkerId>,
              ghost given: map<WorkerId, nat>, ghost k: nat, deal: Deal, r: WorkerId) returns (deal': Deal)
    requires TurnsOk(all, order, recipients) && DealOk(t, all, recipients, Plus(given, r, k), deal) && r in recipients
    requires deal.turn < |order| && order[deal.turn] in deal.left && deal.left[order[deal.turn]] != []
    ensures DealOk(t, all, recipients, Plus(given, r, k + 1), deal') && deal'.turn < |order|
    ensures Sum(order, Sizes(deal'.left)) + 1 == Sum(order, Sizes(deal.left))
    ensures AfterTurn(order, deal, r, deal', 1)
  {
    var d := order[deal.turn];
    var turn := NextTurn(deal.turn, |order|);
    var b := deal.left[d][|deal.left[d]| - 1];
    DealNext(t, all, order, recipients, given, k, deal, d, r, turn);
    deal' := Deal(turn, Popped(deal.left, d), deal.next[b := r], Recorded(deal.changes, d, r, b));
  }

  /** The donor whose turn it is has nothing left. */
  method Pass(ghost t: Table, ghost all: Stacks, order: seq<WorkerId>, ghost recipients: seq<WorkerId>,
              ghost given: map<WorkerId, nat>, deal: Deal, ghost r: WorkerId) returns (deal': Deal)
    requires DealOk(t, all, recipients, given, deal) && Sum(order, Sizes(deal.left)) > 0
    requires deal.turn < |order| && Size(deal.left, order[deal.turn]) == 0
    ensures DealOk(t, all, recipients, given, deal') && deal'.turn < |order| && deal'.left == deal.left
    ensures Wait(order, deal.left, deal'.turn) < Wait(order, deal.left, deal.turn)
    ensures AfterTurn(order, deal, r, deal', 0)
  {
    WaitLess(order, deal.left, deal.turn);
    var turn := NextTurn(deal.turn, |order|);
    deal' := deal.(turn := turn);
  }

  /** The donor whose turn it is gives its last bucket, if it has one left. */
  method Turn(ghost t: Table, ghost all: Stacks, order: seq<WorkerId>, ghost recipients: seq<WorkerId>,
              ghost given: map<WorkerId, nat>, ghost k: nat, deal: Deal, r: WorkerId) returns (deal': Deal, taken: nat)
    requires TurnsOk(all, order, recipients) && DealOk(t, all, recipients, Plus(given, r, k), deal)
    requires deal.turn < |order| && r in recipients && Sum(order, Sizes(deal.left)) > 0
    ensures taken <= 1 && deal'.turn < |order|
    ensures DealOk(t, all, recipients, Plus(given, r, k + taken), deal')
    ensures Sum(order, Sizes(deal'.left)) + taken == Sum(order, Sizes(deal.left))
    ensures taken == 0 ==> Wait(order, deal'.left, deal'.turn) < Wait(order, deal.left, deal.turn)
    ensures AfterTurn(order, deal, r, deal', taken)
  {
    var d := order[deal.turn];
    if d !in deal.left || deal.left[d] == [] {
      deal' := Pass(t, all, order, recipients, Plus(given, r, k), deal, r);
      taken := 0;
    } else {
      deal' := Give(t, all, order, recipients, given, k, deal, r);
      taken := 1;
    }
  }

  lemma PlusNothing(t: Table, all: Stacks, left: Stacks, given: map<WorkerId, nat>, next: Table, r: WorkerId)
    requires LoadsOk(t, all, left, given, next)
    ensures LoadsOk(t, all, left, Plus(given, r, 0), next)
  {
    forall w: WorkerId ensures LoadAt(t, all, left, Plus(given, r, 0), next, w) {
      assert LoadAt(t, all, left, given, next, w);
    }
  }

  /** What donor w gave between two states of the dealing. */
  ghost function Gave(deal: Deal, deal': Deal, w: WorkerId): int {
    Size(deal.left, w) - Size(deal'.left, w)
  }

  /** The donor at position i had its turn since the round began at start. */
  predicate InRound(start: nat, turn: nat, i: nat) {
    if start <= turn then start <= i < turn else i >= start || i < turn
  }

  ghost function TurnsOf(start: nat, turn: nat, rounds: nat, i: nat): nat {
    rounds + if InRound(start, turn, i) then 1 else 0
  }

  /** A donor gave at most one bucket a turn, and one each turn if it still has
      some. */
  ghost predicate GaveAt(order: seq<WorkerId>, deal: Deal, deal': Deal, rounds: nat, i: nat)
    requires i < |order|
  {
    var n := TurnsOf(deal.turn, deal'.turn, rounds, i);
    && 0 <= Gave(deal, deal', order[i]) <= n
    && (Size(deal'.left, order[i]) > 0 ==> Gave(deal, deal', order[i]) == n)
  }

  ghost predicate InTurns(order: seq<WorkerId>, deal: Deal, deal': Deal, rounds: nat) {
    forall i: nat | i < |order| :: GaveAt(order, deal, deal', rounds, i)
  }

  /** What the donors gave since `deal` went to r. */
  ghost predicate AllTo(order: seq<WorkerId>, deal: Deal, deal': Deal, r: WorkerId) {
    && (forall w: WorkerId :: w !in order ==> Gave(deal, deal', w) == 0)
    && (forall w: WorkerId, x: WorkerId ::
          Transfers(deal'.changes, w, x) ==
            Transfers(deal.changes, w, x) + if x == r then Gave(deal, deal', w) else 0)
  }

  lemma NothingGiven(order: seq<WorkerId>, deal: Deal, r: WorkerId)
    ensures Filling(order, deal, deal, r, 0)
  {
    assert forall w: WorkerId :: Gave(deal, deal, w) == 0;
    forall i: nat | i < |order| ensures GaveAt(order, deal, deal, 0, i) {}
    forall w: WorkerId, x: WorkerId
      ensures Transfers(deal.changes, w, x) ==
              Transfers(deal.changes, w, x) + if x == r then Gave(deal, deal, w) else 0
    {
      assert Gave(deal, deal, w) == 0;
    }
  }

  lemma GaveNext(order: seq<WorkerId>, deal: Deal, deal1: Deal, deal2: Deal, r: WorkerId, taken: nat, rounds: nat)
    requires deal.turn < |order| && deal1.turn < |order| && Distinct(order) && TurnTaken(order, deal1, r, deal2, taken)
    requires InTurns(order, deal, deal1, rounds)
    ensures InTurns(order, deal, deal2, if deal2.turn == deal.turn then rounds + 1 else rounds)
  {
    var more := if deal2.turn == deal.turn then rounds + 1 else rounds;
    forall i: nat | i < |order| ensures GaveAt(order, deal, deal2, more, i) {
      assert GaveAt(order, deal, deal1, rounds, i);
      assert TurnsOf(deal.turn, deal2.turn, more, i) ==
             TurnsOf(deal.turn, deal1.turn, rounds, i) + if i == deal1.turn then 1 else 0;
      assert order[i] == order[deal1.turn] <==> i == deal1.turn;
    }
  }

  lemma AllToNext(order: seq<WorkerId>, deal: Deal, deal1: Deal, deal2: Deal, r: WorkerId, taken: nat)
    requires deal1.turn < |order| && TurnTaken(order, deal1, r, deal2, taken) && AllTo(order, deal, deal1, r)
    ensures AllTo(order, deal, deal2, r)
  {
    assert order[deal1.turn] in order;
  }

  /** r is being filled, and every donor had its turn this often. */
  ghost predicate Filling(order: seq<WorkerId>, deal: Deal, deal': Deal, r: WorkerId, rounds: nat) {
    AllTo(order, deal, deal', r) && InTurns(order, deal, deal', rounds)
  }

  lemma FillingNext(order: seq<WorkerId>, deal: Deal, deal1: Deal, deal2: Deal, r: WorkerId, taken: nat, rounds: nat)
    requires deal.turn < |order| && deal1.turn < |order| && Distinct(order) && TurnTaken(order, deal1, r, deal2, taken)
    requires Filling(order, deal, deal1, r, rounds)
    ensures Filling(order, deal, deal2, r, if deal2.turn == deal.turn then rounds + 1 else rounds)
  {
    GaveNext(order, deal, deal1, deal2, r, taken, rounds);
    AllToNext(order, deal, deal1, deal2, r, taken);
  }

  /** No donor gave two buckets more than one that still has some. */
  ghost predicate Shared(order: seq<WorkerId>, deal: Deal, deal': Deal) {
    && (forall w: WorkerId :: Gave(deal, deal', w) >= 0)
    && (forall w: WorkerId, e: WorkerId | w in order && e in order && Size(deal'.left, e) > 0 ::
          Gave(deal, deal', w) <= Gave(deal, deal', e) + 1)
  }

  lemma GaveShared(order: seq<WorkerId>, deal: Deal, deal': Deal, r: WorkerId, rounds: nat)
    requires Filling(order, deal, deal', r, rounds)
    ensures AllTo(order, deal, deal', r) && Shared(order, deal, deal')
  {
    forall w: WorkerId | w in order ensures 0 <= Gave(deal, deal', w) <= rounds + 1 {
      var i: nat :| i < |order| && order[i] == w;
      assert GaveAt(order, deal, deal', rounds, i);
    }
    forall e: WorkerId | e in order && Size(deal'.left, e) > 0 ensures Gave(deal, deal', e) >= rounds {
      var i: nat :| i < |order| && order[i] == e;
      assert GaveAt(order, deal, deal', rounds, i);
    }
  }

  /** One turn while r is being filled. */
  method NextGift(ghost t: Table, ghost all: Stacks, order: seq<WorkerId>, ghost recipients: seq<WorkerId>,
                  ghost given: map<WorkerId, nat>, ghost k: nat, ghost first: Deal, ghost rounds: nat, deal: Deal,
                  r: WorkerId)
    returns (deal': Deal, taken: nat, ghost rounds': nat)
    requires TurnsOk(all, order, recipients) && DealOk(t, all, recipients, Plus(given, r, k), deal)
    requires deal.turn < |order| && r in recipients && Sum(order, Sizes(deal.left)) > 0
    requires first.turn < |order| && Filling(order, first, deal, r, rounds)
    ensures taken <= 1 && deal'.turn < |order|
    ensures DealOk(t, all, recipients, Plus(given, r, k + taken), deal')
    ensures Sum(order, Sizes(deal'.left)) + taken == Sum(order, Sizes(deal.left))
    ensures taken == 0 ==> Wait(order, deal'.left, deal'.turn) < Wait(order, deal.left, deal.turn)
    ensures Filling(order, first, deal', r, rounds')
  {
    deal', taken := Turn(t, all, order, recipients, given, k, deal, r);
    TurnIsTaken(order, deal, r, deal', taken);
    FillingNext(order, first, deal, deal', r, taken, rounds);
    rounds' := if deal'.turn == first.turn then rounds + 1 else rounds;
  }

  /** One recipient gets what it needs, one bucket per donor and round. */
  method Fill(ghost t: Table, ghost all: Stacks, order: seq<WorkerId>, ghost recipients: seq<WorkerId>,
              ghost given: map<WorkerId, nat>, deal: Deal, r: WorkerId, need: nat) returns (deal': Deal)
    requires TurnsOk(all, order, recipients) && DealOk(t, all, recipients, given, deal)
    requires deal.turn < |order| && r in recipients && need <= Sum(order, Sizes(deal.left))
    ensures DealOk(t, all, recipients, Plus(given, r, need), deal') && deal'.turn < |order|
    ensures Sum(order, Sizes(deal'.left)) + need == Sum(order, Sizes(deal.left))
    ensures AllTo(order, deal, deal', r) && Shared(order, deal, deal')
  {
    deal' := deal;
    var n := need;
    ghost var rounds: nat := 0;
    NothingGiven(order, deal, r);
    PlusNothing(t, all, deal.left, given, deal.next, r);
    while n > 0
      invariant 0 <= n <= need && deal'.turn < |order|
      invariant DealOk(t, all, recipients, Plus(given, r, need - n), deal')
      invariant Sum(order, Sizes(deal'.left)) + (need - n) == Sum(order, Sizes(deal.left))
      invariant Filling(order, deal, deal', r, rounds)
      decreases n, Wait(order, deal'.left, deal'.turn)
    {
      var taken: nat;
      deal', taken, rounds := NextGift(t, all, order, recipients, given, need - n, deal, rounds, deal', r);
      n := n - taken;
    }
    GaveShared(order, deal, deal', r, rounds);
  }

  /** The needs of the given recipients. */
  ghost function Given(needs: map<WorkerId, nat>, recipients: seq<WorkerId>): map<WorkerId, nat> {
    map w: WorkerId | w in recipients :: Amount(needs, w)
  }

  /** Every offered bucket has a recipient, every other one its owner, and each
      recipient got what it needs. */
  ghost predicate Dealt(t: Table, all: Stacks, recipients: seq<WorkerId>, needs: map<WorkerId, nat>, next: Table) {
    && |next| == |t|
    && (forall b: Bucket | b < |t| :: if Offers(all, t[b], b) then next[b] in recipients else next[b] == t[b])
    && (forall w: WorkerId :: Load(next, w) + Size(all, w) == Load(t, w) + Amount(Given(needs, recipients), w))
  }

  lemma AllDealt(t: Table, all: Stacks, order: seq<WorkerId>, recipients: seq<WorkerId>, needs: map<WorkerId, nat>,
                 deal: Deal)
    requires TurnsOk(all, order, recipients) && DealOk(t, all, recipients, Given(needs, recipients), deal)
    requires Sum(order, Sizes(deal.left)) == 0
    ensures Dealt(t, all, recipients, needs, deal.next)
  {
    NoneLeft(order, deal.left);
    forall w: WorkerId ensures Size(deal.left, w) == 0 {
      assert DonorAt(all, order, recipients, w);
    }
    forall b: Bucket | b < |t|
      ensures if Offers(all, t[b], b) then deal.next[b] in recipients else deal.next[b] == t[b]
    {
      assert BucketAt(t, all, deal.left, recipients, deal.next, b);
      assert Size(deal.left, t[b]) == 0;
    }
    forall w: WorkerId ensures Load(deal.next, w) + Size(all, w) == Load(t, w) + Amount(Given(needs, recipients), w) {
      assert LoadAt(t, all, deal.left, Given(needs, recipients), deal.next, w);
      assert Size(deal.left, w) == 0;
    }
  }

  lemma NothingDealt(t: Table, all: Stacks, recipients: seq<WorkerId>, needs: map<WorkerId, nat>)
    requires forall d: WorkerId | d in all :: StackAt(t, all, all, d)
    ensures DealOk(t, all, recipients, Given(needs, recipients[..0]), Deal(0, all, t, map[]))
  {
    var given, none: OwnerChanges := Given(needs, recipients[..0]), map[];
    forall w: WorkerId ensures LoadAt(t, all, all, given, t, w) {}
    forall src: WorkerId, dst: WorkerId ensures ListAt(none, src, dst) {}
    forall src: WorkerId, dst: WorkerId, b: Bucket ensures ChangeAt(t, t, none, src, dst, b) {}
  }

  lemma GivenNext(needs: map<WorkerId, nat>, recipients: seq<WorkerId>, i: nat)
    requires Distinct(recipients) && i < |recipients|
    ensures Plus(Given(needs, recipients[..i]), recipients[i], Amount(needs, recipients[i])) ==
            Given(needs, recipients[..i + 1])
    ensures Sum(recipients[i..], Amounts(needs)) ==
            Amount(needs, recipients[i]) + Sum(recipients[i + 1..], Amounts(needs))
  {
    assert recipients[i..][1..] == recipients[i + 1..];
    assert recipients[..i + 1] == recipients[..i] + [recipients[i]];
    assert recipients[i] !in recipients[..i];
  }

  /** Nobody gave recipient a two buckets more than a donor e that had some left. */
  ghost predicate FairTo(changes: OwnerChanges, a: WorkerId, e: WorkerId) {
    forall d: WorkerId :: Transfers(changes, d, a) <= Transfers(changes, e, a) + 1
  }

  /** A recipient gets its buckets from all donors alike: none gives it two more
      than another that still gives to a later recipient. */
  ghost predicate Spread(recipients: seq<WorkerId>, changes: OwnerChanges) {
    forall i, j, e: WorkerId | 0 <= i < j < |recipients| && Transfers(changes, e, recipients[j]) > 0 ::
      FairTo(changes, recipients[i], e)
  }

  /** The same while n recipients have their buckets. */
  ghost predicate SpreadSoFar(recipients: seq<WorkerId>, n: nat, deal: Deal)
    requires n <= |recipients|
  {
    && Spread(recipients[..n], deal.changes)
    && (forall i, e: WorkerId | 0 <= i < n && Size(deal.left, e) > 0 :: FairTo(deal.changes, recipients[i], e))
    && (forall i, d: WorkerId | n <= i < |recipients| :: Transfers(deal.changes, d, recipients[i]) == 0)
  }

  lemma FairKept(order: seq<WorkerId>, deal: Deal, deal': Deal, r: WorkerId, a: WorkerId, e: WorkerId)
    requires AllTo(order, deal, deal', r) && a != r && FairTo(deal.changes, a, e)
    ensures FairTo(deal'.changes, a, e)
  {
    forall d: WorkerId ensures Transfers(deal'.changes, d, a) <= Transfers(deal'.changes, e, a) + 1 {
      assert Transfers(deal'.changes, d, a) == Transfers(deal.changes, d, a);
    }
  }

  lemma FairNow(order: seq<WorkerId>, deal: Deal, deal': Deal, r: WorkerId, e: WorkerId)
    requires AllTo(order, deal, deal', r) && Shared(order, deal, deal') && Size(deal'.left, e) > 0 && e in order
    requires forall d: WorkerId :: Transfers(deal.changes, d, r) == 0
    ensures FairTo(deal'.changes, r, e)
  {
    forall d: WorkerId ensures Transfers(deal'.changes, d, r) <= Transfers(deal'.changes, e, r) + 1 {
      assert Transfers(deal'.changes, d, r) == Gave(deal, deal', d);
      assert Transfers(deal'.changes, e, r) == Gave(deal, deal', e);
      assert d in order ==> Gave(deal, deal', d) <= Gave(deal, deal', e) + 1;
    }
  }

  lemma SpreadNext(order: seq<WorkerId>, recipients: seq<WorkerId>, n: nat, deal: Deal, deal': Deal)
    requires n < |recipients| && Distinct(recipients) && SpreadSoFar(recipients, n, deal)
    requires AllTo(order, deal, deal', recipients[n]) && Shared(order, deal, deal')
    requires forall w: WorkerId :: Size(deal'.left, w) > 0 ==> w in order
    ensures SpreadSoFar(recipients, n + 1, deal')
  {
    var r := recipients[n];
    forall i, e: WorkerId | 0 <= i < n + 1 && Size(deal'.left, e) > 0
      ensures FairTo(deal'.changes, recipients[i], e)
    {
      assert Gave(deal, deal', e) >= 0;
      if i < n {
        FairKept(order, deal, deal', r, recipients[i], e);
      } else {
        FairNow(order, deal, deal', r, e);
      }
    }
    forall i, d: WorkerId | n + 1 <= i < |recipients| ensures Transfers(deal'.changes, d, recipients[i]) == 0 {
      assert Transfers(deal.changes, d, recipients[i]) == 0;
    }
    var first := recipients[..n + 1];
    forall i, j, e: WorkerId | 0 <= i < j < |first| && Transfers(deal'.changes, e, first[j]) > 0
      ensures FairTo(deal'.changes, first[i], e)
    {
      if j < n {
        assert recipients[..n][i] == first[i] && recipients[..n][j] == first[j];
        assert Transfers(deal.changes, e, recipients[..n][j]) > 0;
      } else {
        assert Transfers(deal.changes, e, r) == 0 && Gave(deal, deal', e) > 0;
      }
      assert FairTo(deal.changes, recipients[i], e);
      FairKept(order, deal, deal', r, recipients[i], e);
    }
  }

  /** The donors' buckets are dealt to the recipients in turns. */
  method Distribute(t: Table, all: Stacks, order: seq<WorkerId>, recipients: seq<WorkerId>, needs: map<WorkerId, nat>)
    returns (next: Table, changes: OwnerChanges)
    requires TurnsOk(all, order, recipients) && Distinct(recipients) && order != []
    requires forall d: WorkerId | d in all :: StackAt(t, all, all, d)
    requires Sum(recipients, Amounts(needs)) == Sum(order, Sizes(all))
    ensures Dealt(t, all, recipients, needs, next) && ChangesOk(t, next, changes) && Spread(recipients, changes)
  {
    var deal := Deal(0, all, t, map[]);
    NothingDealt(t, all, recipients, needs);
    assert recipients[0..] == recipients;
    for i := 0 to |recipients|
      invariant deal.turn < |order| && DealOk(t, all, recipients, Given(needs, recipients[..i]), deal)
      invariant Sum(recipients[i..], Amounts(needs)) == Sum(order, Sizes(deal.left))
      invariant SpreadSoFar(recipients, i, deal)
    {
      ghost var before := deal;
      GivenNext(needs, recipients, i);
      deal := Fill(t, all, order, recipients, Given(needs, recipients[..i]), deal, recipients[i],
          Amount(needs, recipients[i]));
      forall w: WorkerId | Size(deal.left, w) > 0 ensures w in order {
        assert DonorAt(all, order, recipients, w);
      }
      SpreadNext(order, recipients, i, before, deal);
    }
    assert recipients[..|recipients|] == recipients;
    AllDealt(t, all, order, recipients, needs, deal);
    next, changes := deal.next, deal.changes;
  }
}

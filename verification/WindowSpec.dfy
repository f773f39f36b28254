/**
 What sliding windows mean: panes, windows and their aggregates over a history of
 records, and the law that aggregating pane by pane is aggregating directly.
 */
module WindowSpec {
  import opened Types

  /** A sliding window operator: R records, K keys, V aggregates. */
  datatype Query<!R, !K, !V> = Query(
    duration: int,
    slide: int,
    keyOf: R -> K,
    timeOf: R -> int,
    unit: V,
    add: (V, R) -> V,
    merge: (V, V) -> V)

  predicate ValidTimes<R, K, V>(q: Query<R, K, V>) {
    q.slide > 0 && q.duration > 0 && q.duration % q.slide == 0
  }

  /** The unit is neutral, merge is associative and commutative, and adding a
      record is merging its own aggregate. */
  ghost predicate Lawful<R(!new), K, V(!new)>(q: Query<R, K, V>) {
    && (forall a: V :: q.merge(q.unit, a) == a)
    && (forall a: V, b: V :: q.merge(a, b) == q.merge(b, a))
    && (forall a: V, b: V, c: V :: q.merge(q.merge(a, b), c) == q.merge(a, q.merge(b, c)))
    && (forall a: V, r: R :: q.add(a, r) == q.merge(a, q.add(q.unit, r)))
  }

  // ----------------------------------------------------------------- times

  /** The remainder truncates toward zero. */
  function Rem(a: int, b: int): int
    requires b > 0
  {
    if a >= 0 then a % b else -((-a) % b)
  }

  function PaneStart(time: int, slide: int): int
    requires slide > 0
  {
    time - Rem(time, slide)
  }

  /** A pane contains the time it was computed for exactly if the time is not
      negative or is on a pane boundary. */
  lemma PaneStartExact(time: int, slide: int)
    requires slide > 0
    ensures PaneStart(time, slide) <= time < PaneStart(time, slide) + slide <==> time >= 0 || Rem(time, slide) == 0
  {
  }

  predicate Aligned(t: int, slide: int)
    requires slide > 0
  {
    t % slide == 0
  }

  lemma PaneStartAligned(time: int, slide: int)
    requires slide > 0
    ensures Aligned(PaneStart(time, slide), slide)
    ensures time >= 0 ==> PaneStart(time, slide) <= time < PaneStart(time, slide) + slide
  {
    var n := if time >= 0 then time / slide else -((-time) / slide);
    assert PaneStart(time, slide) == n * slide + 0;
    MultipleAligned(n, slide);
  }

  lemma MultipleAligned(n: int, slide: int)
    requires slide > 0
    ensures Aligned(n * slide, slide)
  {
    assert (n * slide) / slide == n by { DivMul(n, slide); }
  }

  lemma DivMul(n: int, slide: int)
    requires slide > 0
    ensures (n * slide) / slide == n
  {
    var q, r := (n * slide) / slide, (n * slide) % slide;
    assert n * slide == q * slide + r;
    assert (n - q) * slide == r;
    assert n - q >= 1 ==> (n - q) * slide >= slide;
    assert n - q <= -1 ==> (n - q) * slide <= -slide;
  }

  /** Aligned times differ by at least one slide. */
  lemma AlignedGap(a: int, b: int, slide: int)
    requires slide > 0 && Aligned(a, slide) && Aligned(b, slide)
    ensures a < b ==> a + slide <= b
    ensures Aligned(b - a, slide)
  {
    var x, y := a / slide, b / slide;
    assert a == x * slide && b == y * slide;
    assert b - a == (y - x) * slide;
    MultipleAligned(y - x, slide);
    assert y - x <= 0 ==> (y - x) * slide <= 0;
    assert y - x >= 1 ==> (y - x) * slide >= slide;
  }

  /** Pane p is one of the panes of the window that starts at s. */
  predicate PaneIn(p: int, s: int, duration: int, slide: int)
    requires slide > 0
  {
    s <= p <= s + duration - slide && Aligned(p, slide) && Aligned(s, slide)
  }

  /** A record is in a window exactly if its pane is. */
  lemma RecordInWindow(time: int, s: int, duration: int, slide: int)
    requires slide > 0 && duration > 0 && duration % slide == 0 && time >= 0 && Aligned(s, slide)
    ensures s <= time < s + duration <==> PaneIn(PaneStart(time, slide), s, duration, slide)
  {
    var p := PaneStart(time, slide);
    PaneStartAligned(time, slide);
    AlignedGap(p, s, slide);
    assert Aligned(duration, slide);
    AlignedSum(s, duration, slide);
    AlignedGap(p, s + duration, slide);
  }

  lemma AlignedSum(a: int, b: int, slide: int)
    requires slide > 0 && Aligned(a, slide) && Aligned(b, slide)
    ensures Aligned(a + b, slide)
  {
    var x, y := a / slide, b / slide;
    assert a + b == (x + y) * slide;
    MultipleAligned(x + y, slide);
  }

  // ------------------------------------------------------------ aggregates

  predicate InPane<R, K(==), V>(q: Query<R, K, V>, r: R, k: K, p: int)
    requires ValidTimes(q)
  {
    q.keyOf(r) == k && PaneStart(q.timeOf(r), q.slide) == p
  }

  /** Records of key k with s <= time < s + duration. */
  predicate InWindow<R, K(==), V>(q: Query<R, K, V>, r: R, k: K, s: int) {
    q.keyOf(r) == k && s <= q.timeOf(r) < s + q.duration
  }

  /** The state of a pane: its records added in the order of arrival. */
  function PaneSum<R, K(==), V>(q: Query<R, K, V>, w: seq<R>, k: K, p: int): V
    requires ValidTimes(q)
  {
    if w == [] then q.unit
    else
      var r, v := w[|w| - 1], PaneSum(q, w[..|w| - 1], k, p);
      if InPane(q, r, k, p) then q.add(v, r) else v
  }

  /** Direct aggregation of a window. */
  function WindowSum<R, K(==), V>(q: Query<R, K, V>, w: seq<R>, k: K, s: int): V {
    if w == [] then q.unit
    else
      var r, v := w[|w| - 1], WindowSum(q, w[..|w| - 1], k, s);
      if InWindow(q, r, k, s) then q.add(v, r) else v
  }

  /** Merging the states of a list of panes, in order. */
  function MergedPanes<R, K(==), V>(q: Query<R, K, V>, w: seq<R>, k: K, panes: seq<int>): V
    requires ValidTimes(q)
  {
    if panes == [] then q.unit
    else q.merge(MergedPanes(q, w, k, panes[..|panes| - 1]), PaneSum(q, w, k, panes[|panes| - 1]))
  }

  predicate HasPane<R, K(==), V>(q: Query<R, K, V>, w: seq<R>, k: K, p: int)
    requires ValidTimes(q)
  {
    exists i :: 0 <= i < |w| && InPane(q, w[i], k, p)
  }

  lemma {:induction false} MergedEmpty<R(!new), K, V(!new)>(q: Query<R, K, V>, k: K, panes: seq<int>)
    requires ValidTimes(q) && Lawful(q)
    ensures MergedPanes(q, [], k, panes) == q.unit
  {
    if panes != [] { MergedEmpty(q, k, panes[..|panes| - 1]); }
  }

  /** One more record changes the merged aggregate by exactly that record, if its
      pane is in the list, and not at all otherwise. */
  lemma {:induction false} MergedNext<R(!new), K, V(!new)>(q: Query<R, K, V>, w: seq<R>, r: R, k: K, panes: seq<int>)
    requires ValidTimes(q) && Lawful(q) && Distinct(panes)
    ensures MergedPanes(q, w + [r], k, panes) ==
              if q.keyOf(r) == k && PaneStart(q.timeOf(r), q.slide) in panes then q.add(MergedPanes(q, w, k, panes), r)
              else MergedPanes(q, w, k, panes)
  {
    if panes != [] {
      var init, p := panes[..|panes| - 1], panes[|panes| - 1];
      MergedNext(q, w, r, k, init);
      assert (w + [r])[..|w|] == w;
      assert panes == init + [p];
      var m, v, x := MergedPanes(q, w, k, init), PaneSum(q, w, k, p), q.add(q.unit, r);
      if InPane(q, r, k, p) {
        assert p !in init;
        assert q.merge(m, q.merge(v, x)) == q.merge(q.merge(m, v), x);
      } else if q.keyOf(r) == k && PaneStart(q.timeOf(r), q.slide) in init {
        Rotate(q, m, x, v);
      }
    }
  }

  lemma Rotate<R(!new), K, V(!new)>(q: Query<R, K, V>, m: V, x: V, v: V)
    requires Lawful(q)
    ensures q.merge(q.merge(m, x), v) == q.merge(q.merge(m, v), x)
  {
    assert q.merge(q.merge(m, x), v) == q.merge(m, q.merge(x, v)) == q.merge(m, q.merge(v, x)) ==
        q.merge(q.merge(m, v), x);
  }

  /** Aggregating pane by pane is aggregating directly: for any list that has each
      pane of the window that has records of k, and only panes of the window. */
  lemma {:induction false} PanesAreDirect<R(!new), K, V(!new)>(q: Query<R, K, V>, w: seq<R>, k: K, s: int,
                                                               panes: seq<int>)
    requires ValidTimes(q) && Lawful(q) && Distinct(panes) && Aligned(s, q.slide)
    requires forall r | r in w :: q.timeOf(r) >= 0
    requires forall p | p in panes :: PaneIn(p, s, q.duration, q.slide)
    requires forall p: int | PaneIn(p, s, q.duration, q.slide) && HasPane(q, w, k, p) :: p in panes
    ensures MergedPanes(q, w, k, panes) == WindowSum(q, w, k, s)
  {
    if w == [] {
      MergedEmpty(q, k, panes);
    } else {
      var init, r := w[..|w| - 1], w[|w| - 1];
      assert w == init + [r] && r in w && forall x | x in init :: x in w;
      forall p: int | PaneIn(p, s, q.duration, q.slide) && HasPane(q, init, k, p) ensures p in panes {
        var i :| 0 <= i < |init| && InPane(q, init[i], k, p);
        assert InPane(q, w[i], k, p);
      }
      PanesAreDirect(q, init, k, s, panes);
      MergedNext(q, init, r, k, panes);
      RecordInWindow(q.timeOf(r), s, q.duration, q.slide);
      if InWindow(q, r, k, s) {
        assert InPane(q, w[|init|], k, PaneStart(q.timeOf(r), q.slide));
        assert HasPane(q, w, k, PaneStart(q.timeOf(r), q.slide));
      }
    }
  }
}

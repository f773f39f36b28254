/**
 The sliding window operator on shared panes: window state is kept per pane, an
 index lists the active windows with their panes, and a watermark fires windows
 and frees panes.
 */
module SlidingWindow {
  import opened Types
  import opened WindowSpec

  /** One result: key, start of the window, aggregate. */
  datatype Result<K, V> = Result(key: K, start: int, value: V)

  type Panes<K(==), V> = map<(K, int), V>
  type Index<K(==)> = map<(int, K), seq<int>>

  // ----------------------------------------------------------- invariant

  /** A pane has state exactly if it has records and some window that has not
      fired still needs it, and then its state is the sum of its records. */
  ghost predicate PaneOk<R, K, V>(q: Query<R, K, V>, panes: Panes<K, V>, w: seq<R>, wm: int, k: K, p: int)
    requires ValidTimes(q)
  {
    && ((k, p) in panes <==> HasPane(q, w, k, p) && p > wm - q.duration)
    && ((k, p) in panes ==> panes[(k, p)] == PaneSum(q, w, k, p))
  }

  ghost predicate HasRecords<R, K, V>(q: Query<R, K, V>, w: seq<R>, k: K, s: int)
    requires ValidTimes(q)
  {
    exists p: int :: PaneIn(p, s, q.duration, q.slide) && HasPane(q, w, k, p)
  }

  /** A window is in the index exactly if it has records and has not fired, and
      lists its panes with records once each. */
  ghost predicate WindowOk<R, K, V>(q: Query<R, K, V>, index: Index<K>, w: seq<R>, wm: int, k: K, s: int)
    requires ValidTimes(q)
  {
    && ((s, k) in index <==> s > wm - q.duration && HasRecords(q, w, k, s))
    && ((s, k) in index ==>
          && Distinct(index[(s, k)])
          && forall p: int :: p in index[(s, k)] <==> PaneIn(p, s, q.duration, q.slide) && HasPane(q, w, k, p))
  }

  ghost predicate Fires<K, V>(fired: seq<Result<K, V>>, k: K, s: int) {
    exists i :: 0 <= i < |fired| && fired[i].key == k && fired[i].start == s
  }

  /** Every window that is over has fired, once, with its direct aggregate. */
  ghost predicate FiredOk<R, K(!new), V>(q: Query<R, K, V>, fired: seq<Result<K, V>>, w: seq<R>, wm: int)
    requires ValidTimes(q)
  {
    && (forall i | 0 <= i < |fired| ::
          && fired[i].start <= wm - q.duration && Aligned(fired[i].start, q.slide)
          && fired[i].value == WindowSum(q, w, fired[i].key, fired[i].start))
    && (forall i, j :: 0 <= i < j < |fired| ==> (fired[i].key, fired[i].start) != (fired[j].key, fired[j].start))
    && (forall k: K, s: int :: Fires(fired, k, s) <==> s <= wm - q.duration && HasRecords(q, w, k, s))
  }

  // --------------------------------------------------------------- records

  lemma HasPaneNext<R, K, V>(q: Query<R, K, V>, w: seq<R>, r: R, k: K, p: int)
    requires ValidTimes(q)
    ensures HasPane(q, w + [r], k, p) <==> HasPane(q, w, k, p) || InPane(q, r, k, p)
    ensures PaneSum(q, w + [r], k, p) ==
            if InPane(q, r, k, p) then q.add(PaneSum(q, w, k, p), r) else PaneSum(q, w, k, p)
  {
    var w' := w + [r];
    assert w'[..|w|] == w && w'[|w|] == r;
    if i :| 0 <= i < |w| && InPane(q, w[i], k, p) { assert InPane(q, w'[i], k, p); }
    if i :| 0 <= i < |w'| && InPane(q, w'[i], k, p) { assert i < |w| ==> InPane(q, w[i], k, p); }
  }

  /** A record is on time if the watermark has not passed the end of its pane. */
  predicate OnTime<R, K, V>(q: Query<R, K, V>, r: R, wm: int)
    requires ValidTimes(q)
  {
    q.timeOf(r) >= 0 && PaneStart(q.timeOf(r), q.slide) + q.slide > wm
  }

  /** No window of an on-time record has fired. */
  lemma OnTimePane<R, K, V>(q: Query<R, K, V>, r: R, wm: int, s: int)
    requires ValidTimes(q) && OnTime(q, r, wm)
    ensures var p := PaneStart(q.timeOf(r), q.slide);
            && Aligned(p, q.slide) && p > wm - q.duration
            && (PaneIn(p, s, q.duration, q.slide) ==> s > wm - q.duration)
  {
    PaneStartAligned(q.timeOf(r), q.slide);
    assert q.duration >= q.slide by { DurationAtLeastSlide(q.duration, q.slide); }
  }

  /** A record is on time exactly if none of its windows is over. */
  lemma OnTimeExact<R, K, V>(q: Query<R, K, V>, r: R, wm: int)
    requires ValidTimes(q) && q.timeOf(r) >= 0
    ensures OnTime(q, r, wm) <==>
              forall s: int | PaneIn(PaneStart(q.timeOf(r), q.slide), s, q.duration, q.slide) :: s + q.duration > wm
  {
    var p := PaneStart(q.timeOf(r), q.slide);
    PaneStartAligned(q.timeOf(r), q.slide);
    FirstStart(p, q.duration, q.slide);
    assert PaneIn(p, p - q.duration + q.slide, q.duration, q.slide);
  }

  lemma DurationAtLeastSlide(duration: int, slide: int)
    requires slide > 0 && duration > 0 && duration % slide == 0
    ensures duration >= slide
  {
  }

  /** The index after pane (k, p) was added to all its windows. */
  ghost predicate PaneAdded<K(!new)>(index: Index<K>, index': Index<K>, k: K, p: int, duration: int, slide: int)
    requires slide > 0
  {
    forall s: int, j: K ::
      && ((s, j) in index' <==> (s, j) in index || (j == k && PaneIn(p, s, duration, slide)))
      && ((s, j) in index' ==>
            index'[(s, j)] == (ListAt(index, s, j) + if j == k && PaneIn(p, s, duration, slide) then [p] else []))
  }

  function ListAt<K>(index: Index<K>, s: int, k: K): seq<int> {
    if (s, k) in index then index[(s, k)] else []
  }

  lemma PanesKeep<R, K(!new), V>(q: Query<R, K, V>, panes: Panes<K, V>, panes': Panes<K, V>, w: seq<R>, wm: int, r: R,
                                 j: K, p: int)
    requires ValidTimes(q) && OnTime(q, r, wm) && PaneOk(q, panes, w, wm, j, p)
    requires forall p: int :: !HasPane(q, w, j, p) ==> PaneSum(q, w, j, p) == q.unit
    requires var k, d := q.keyOf(r), PaneStart(q.timeOf(r), q.slide);
             panes' == panes[(k, d) := q.add(if (k, d) in panes then panes[(k, d)] else q.unit, r)]
    ensures PaneOk(q, panes', w + [r], wm, j, p)
  {
    HasPaneNext(q, w, r, j, p);
    OnTimePane(q, r, wm, p);
  }

  lemma {:induction false} NoRecordsUnit<R, K, V>(q: Query<R, K, V>, w: seq<R>, k: K, p: int)
    requires ValidTimes(q) && !HasPane(q, w, k, p)
    ensures PaneSum(q, w, k, p) == q.unit
  {
    if w != [] {
      var init, r := w[..|w| - 1], w[|w| - 1];
      assert w == init + [r];
      HasPaneNext(q, init, r, k, p);
      NoRecordsUnit(q, init, k, p);
    }
  }

  lemma HasRecordsNext<R, K, V>(q: Query<R, K, V>, w: seq<R>, r: R, k: K, s: int)
    requires ValidTimes(q)
    ensures HasRecords(q, w + [r], k, s) <==>
              || HasRecords(q, w, k, s)
              || (q.keyOf(r) == k && PaneIn(PaneStart(q.timeOf(r), q.slide), s, q.duration, q.slide))
  {
    var d := PaneStart(q.timeOf(r), q.slide);
    if HasRecords(q, w, k, s) {
      var p: int :| PaneIn(p, s, q.duration, q.slide) && HasPane(q, w, k, p);
      HasPaneNext(q, w, r, k, p);
    }
    if HasRecords(q, w + [r], k, s) {
      var p: int :| PaneIn(p, s, q.duration, q.slide) && HasPane(q, w + [r], k, p);
      HasPaneNext(q, w, r, k, p);
    }
    HasPaneNext(q, w, r, k, d);
  }

  /** A record of a pane that is known changes no window; one of a new pane adds
      the pane to its windows. */
  lemma WindowsKeep<R, K(!new), V>(q: Query<R, K, V>, index: Index<K>, index': Index<K>, w: seq<R>, wm: int, r: R, j: K,
                                   s: int)
    requires ValidTimes(q) && OnTime(q, r, wm) && WindowOk(q, index, w, wm, j, s)
    requires var k, d := q.keyOf(r), PaneStart(q.timeOf(r), q.slide);
             if HasPane(q, w, k, d) then index' == index else PaneAdded(index, index', k, d, q.duration, q.slide)
    ensures WindowOk(q, index', w + [r], wm, j, s)
  {
    var k, d := q.keyOf(r), PaneStart(q.timeOf(r), q.slide);
    HasRecordsNext(q, w, r, j, s);
    OnTimePane(q, r, wm, s);
    forall p: int
      ensures HasPane(q, w + [r], j, p) <==> HasPane(q, w, j, p) || (j == k && p == d)
    {
      HasPaneNext(q, w, r, j, p);
    }
    if (s, j) in index' && !HasPane(q, w, k, d) {
      var l, l' := ListAt(index, s, j), index'[(s, j)];
      assert l' == l + if j == k && PaneIn(d, s, q.duration, q.slide) then [d] else [];
    }
  }

  /** An on-time record is in no window that has fired. */
  lemma FiredKeep<R, K(!new), V>(q: Query<R, K, V>, fired: seq<Result<K, V>>, w: seq<R>, wm: int, r: R)
    requires ValidTimes(q) && OnTime(q, r, wm) && FiredOk(q, fired, w, wm)
    ensures FiredOk(q, fired, w + [r], wm)
  {
    forall i | 0 <= i < |fired| ensures fired[i].value == WindowSum(q, w + [r], fired[i].key, fired[i].start) {
      assert (w + [r])[..|w|] == w;
      RecordInWindow(q.timeOf(r), fired[i].start, q.duration, q.slide);
      OnTimePane(q, r, wm, fired[i].start);
    }
    forall k: K, s: int ensures Fires(fired, k, s) <==> s <= wm - q.duration && HasRecords(q, w + [r], k, s) {
      assert Fires(fired, k, s) <==> s <= wm - q.duration && HasRecords(q, w, k, s);
      HasRecordsNext(q, w, r, k, s);
      OnTimePane(q, r, wm, s);
    }
  }

  /** A late record breaks the results unless the aggregator ignores it: its
      oldest window is over, and either has not fired or has fired without it. */
  lemma LateRecordBreaks<R, K(!new), V>(q: Query<R, K, V>, fired: seq<Result<K, V>>, w: seq<R>, wm: int, r: R)
    requires ValidTimes(q) && FiredOk(q, fired, w, wm) && q.timeOf(r) >= 0 && !OnTime(q, r, wm)
    requires forall v: V :: q.add(v, r) != v
    ensures !FiredOk(q, fired, w + [r], wm)
  {
    var k, p := q.keyOf(r), PaneStart(q.timeOf(r), q.slide);
    var s := p - q.duration + q.slide;
    PaneStartAligned(q.timeOf(r), q.slide);
    FirstStart(p, q.duration, q.slide);
    RecordInWindow(q.timeOf(r), s, q.duration, q.slide);
    HasRecordsNext(q, w, r, k, s);
    assert (w + [r])[..|w|] == w;
    assert WindowSum(q, w + [r], k, s) == q.add(WindowSum(q, w, k, s), r);
    assert Fires(fired, k, s) <==> HasRecords(q, w, k, s);
  }

  /** What processing a record does to the panes and the index. */
  ghost predicate Recorded<R, K(!new), V>(q: Query<R, K, V>, panes: Panes<K, V>, index: Index<K>, r: R,
                                          panes': Panes<K, V>, index': Index<K>)
    requires ValidTimes(q)
  {
    var k, p := q.keyOf(r), PaneStart(q.timeOf(r), q.slide);
    && panes' == panes[(k, p) := q.add(if (k, p) in panes then panes[(k, p)] else q.unit, r)]
    && if (k, p) in panes then index' == index else PaneAdded(index, index', k, p, q.duration, q.slide)
  }

  /** A window that is over before a record of it is processed is due again at the
      next watermark exactly when the pane of the record has no state: when the
      pane was freed or no record of it was processed before. */
  lemma LateRecordFiresTwice<R, K(!new), V>(q: Query<R, K, V>, panes: Panes<K, V>, index: Index<K>, w: seq<R>, wm: int,
                                            r: R, panes': Panes<K, V>, index': Index<K>, s: int, t: int,
                                            windows: seq<(int, K)>)
    requires ValidTimes(q) && t >= wm && s <= wm - q.duration
    requires var k, p := q.keyOf(r), PaneStart(q.timeOf(r), q.slide);
             PaneIn(p, s, q.duration, q.slide) && PaneOk(q, panes, w, wm, k, p) && WindowOk(q, index, w, wm, k, s)
    requires Recorded(q, panes, index, r, panes', index') && DueWindows(index', t - q.duration, windows)
    ensures var k, p := q.keyOf(r), PaneStart(q.timeOf(r), q.slide);
            (s, k) in windows <==> p <= wm - q.duration || !HasPane(q, w, k, p)
  {
    var k := q.keyOf(r);
    assert (s, k) in windows <==> (s, k) in index';
  }

  // ------------------------------------------------------------ start times

  /** The starts of all windows of a pane. */
  method GetSlidingWindowStartTimes(p: int, duration: int, slide: int) returns (starts: seq<int>)
    requires slide > 0 && duration > 0 && duration % slide == 0 && Aligned(p, slide)
    ensures forall s: int :: s in starts <==> PaneIn(p, s, duration, slide)
    ensures Distinct(starts)
  {
    starts := [];
    var i := p - duration + slide;
    FirstStart(p, duration, slide);
    while i <= p
      invariant Aligned(i, slide) && i <= p + slide
      invariant forall s: int :: s in starts <==> PaneIn(p, s, duration, slide) && s < i
      invariant Distinct(starts)
      decreases p - i
    {
      assert i !in starts;
      starts := starts + [i];
      AlignedSum(i, slide, slide);
      forall s: int | PaneIn(p, s, duration, slide)
        ensures s < i || s == i || s >= i + slide
      {
        AlignedGap(i, s, slide);
      }
      i := i + slide;
      if i > p { AlignedGap(p, i, slide); }
    }
  }

  lemma FirstStart(p: int, duration: int, slide: int)
    requires slide > 0 && duration > 0 && duration % slide == 0 && Aligned(p, slide)
    ensures Aligned(p - duration + slide, slide) && slide <= duration
  {
    DurationAtLeastSlide(duration, slide);
    AlignedGap(duration, p, slide);
    AlignedSum(p - duration, slide, slide);
  }

  // -------------------------------------------------------------- operator

  class SlidingWindow<R(!new), K(==, !new), V(!new)> {
    const q: Query<R, K, V>
    var panes: Panes<K, V>
    var index: Index<K>
    var fired: seq<Result<K, V>>
    ghost var records: seq<R>          // all records processed so far
    ghost var wm: int                  // the last watermark

    ghost predicate Valid()
      reads this
    {
      && ValidTimes(q)
      && (forall r | r in records :: q.timeOf(r) >= 0)
      && (forall k: K, p: int :: PaneOk(q, panes, records, wm, k, p))
      && (forall k: K, s: int :: WindowOk(q, index, records, wm, k, s))
      && FiredOk(q, fired, records, wm)
    }

    constructor (q: Query<R, K, V>, wm: int)
      requires ValidTimes(q)
      ensures Valid() && this.q == q && records == [] && fired == [] && this.wm == wm
    {
      this.q, panes, index, fired, records, this.wm := q, map[], map[], [], [], wm;
      new;
      forall k: K, s: int ensures !HasRecords(q, records, k, s) {}
    }

    /** Adds a new pane to all windows it belongs to. */
    method AddPane(k: K, p: int)
      requires ValidTimes(q) && Aligned(p, q.slide)
      modifies this`index
      ensures PaneAdded(old(index), index, k, p, q.duration, q.slide)
    {
      var starts := GetSlidingWindowStartTimes(p, q.duration, q.slide);
      for i := 0 to |starts|
        invariant forall s: int, j: K ::
                    && ((s, j) in index <==> (s, j) in old(index) || (j == k && s in starts[..i]))
                    && ((s, j) in index ==>
                          index[(s, j)] == ListAt(old(index), s, j) + if j == k && s in starts[..i] then [p] else [])
      {
        var s := starts[i];
        assert s !in starts[..i];
        assert starts[..i + 1] == starts[..i] + [s];
        index := index[(s, k) := ListAt(index, s, k) + [p]];
      }
      assert starts[..|starts|] == starts;
    }

    method ProcessRecord(r: R)
      requires ValidTimes(q)
      modifies this`panes, this`index, this`records
      ensures records == old(records) + [r] && Recorded(q, old(panes), old(index), r, panes, index)
      ensures old(Valid()) && OnTime(q, r, wm) ==> Valid()
    {
      var k, p := q.keyOf(r), PaneStart(q.timeOf(r), q.slide);
      var state;
      if (k, p) in panes {
        state := panes[(k, p)];
      } else {
        state := q.unit;
        PaneStartAligned(q.timeOf(r), q.slide);
        AddPane(k, p);
      }
      panes := panes[(k, p) := q.add(state, r)];
      records := records + [r];
      if old(Valid()) && OnTime(q, r, wm) { OnTimeKeeps(old(panes), old(index), old(records), r); }
    }

    lemma OnTimeKeeps(panes0: Panes<K, V>, index0: Index<K>, w: seq<R>, r: R)
      requires ValidTimes(q) && OnTime(q, r, wm) && FiredOk(q, fired, w, wm) && records == w + [r]
      requires forall r | r in w :: q.timeOf(r) >= 0
      requires forall k: K, p: int :: PaneOk(q, panes0, w, wm, k, p)
      requires forall k: K, s: int :: WindowOk(q, index0, w, wm, k, s)
      requires Recorded(q, panes0, index0, r, panes, index)
      ensures Valid()
    {
      var k, p := q.keyOf(r), PaneStart(q.timeOf(r), q.slide);
      assert PaneOk(q, panes0, w, wm, k, p);
      OnTimePane(q, r, wm, p);
      forall j: K, d: int ensures PaneOk(q, panes, records, wm, j, d) {
        assert PaneOk(q, panes0, w, wm, j, d);
        forall e: int | !HasPane(q, w, j, e) ensures PaneSum(q, w, j, e) == q.unit { NoRecordsUnit(q, w, j, e); }
        PanesKeep(q, panes0, panes, w, wm, r, j, d);
      }
      forall j: K, s: int ensures WindowOk(q, index, records, wm, j, s) {
        assert WindowOk(q, index0, w, wm, j, s);
        WindowsKeep(q, index0, index, w, wm, r, j, s);
      }
      FiredKeep(q, fired, w, wm, r);
    }

    /** The records of a batch, in order. */
    method ProcessBatch(batch: seq<R>)
      requires ValidTimes(q)
      modifies this`panes, this`index, this`records
      ensures records == old(records) + batch
      ensures old(Valid()) && (forall r | r in batch :: OnTime(q, r, wm)) ==> Valid()
    {
      ghost var good := Valid() && forall r | r in batch :: OnTime(q, r, wm);
      for i := 0 to |batch|
        invariant (good ==> Valid()) && records == old(records) + batch[..i]
      {
        assert batch[i] in batch;
        ProcessRecord(batch[i]);
        assert batch[..i + 1] == batch[..i] + [batch[i]];
      }
      assert batch[..|batch|] == batch;
    }

    /** The windows that end at or before the watermark, in some order, and all
        their panes. */
    method GetWindowsToBeFired(t: int) returns (windows: seq<(int, K)>, fetch: set<(K, int)>)
      ensures DueWindows(index, t - q.duration, windows)
      ensures fetch == DuePanes(index, t - q.duration, index.Keys)
    {
      windows, fetch := [], {};
      var rest := index.Keys;
      while rest != {}
        invariant rest <= index.Keys
        invariant fetch == DuePanes(index, t - q.duration, index.Keys - rest)
        invariant forall x :: x in windows <==> x in index && x !in rest && x.0 <= t - q.duration
        invariant forall i, j :: 0 <= i < j < |windows| ==> windows[i] != windows[j]
        decreases rest
      {
        var x :| x in rest;
        rest := rest - {x};
        ghost var seen := index.Keys - rest;
        DuePanesNext(index, t - q.duration, seen - {x}, x);
        assert seen - {x} + {x} == seen && seen - {x} == index.Keys - (rest + {x});
        if x.0 <= t - q.duration {
          assert x !in windows;
          windows := windows + [x];
          fetch := fetch + PanesOf(index, x);
        }
      }
    }

    /** Merges the panes of one window. */
    method Aggregate(k: K, list: seq<int>) returns (v: V)
      requires ValidTimes(q) && forall p | p in list :: Summed(q, panes, records, k, p)
      ensures v == MergedPanes(q, records, k, list)
    {
      v := q.unit;
      for i := 0 to |list|
        invariant v == MergedPanes(q, records, k, list[..i])
      {
        assert Summed(q, panes, records, k, list[i]);
        assert list[..i + 1][..i] == list[..i];
        v := q.merge(v, panes[(k, list[i])]);
      }
      assert list[..|list|] == list;
    }

    /** Fires one window and collects the panes it frees. */
    method FireWindow(k: K, s: int, due: int) returns (free: set<(K, int)>)
      requires ValidTimes(q) && Lawful(q) && (s, k) in index && forall r | r in records :: q.timeOf(r) >= 0
      requires forall k: K, p: int :: PaneOk(q, panes, records, wm, k, p)
      requires WindowOk(q, index, records, wm, k, s)
      modifies this`fired, this`index
      ensures fired == old(fired) + [Result(k, s, WindowSum(q, records, k, s))]
      ensures index == old(index) - {(s, k)}
      ensures free == Frees(old(index), due, (s, k))
    {
      var list := index[(s, k)];
      WindowPanes(q, panes, index, records, wm, k, s);
      var v := Aggregate(k, list);
      PanesAreDirect(q, records, k, s, list);
      fired := fired + [Result(k, s, v)];
      free := Frees(index, due, (s, k));
      index := index - {(s, k)};
    }

    /** Fires all windows that end at or before the watermark, each once with the
        direct aggregate of its records, and frees the panes that no window needs
        any more. All of them were fetched before. */
    method ProcessProgressedWatermark(t: int) returns (fetch: set<(K, int)>)
      requires Valid() && Lawful(q) && t >= wm
      modifies this
      ensures Valid() && wm == t && records == old(records) && old(fired) <= fired
      ensures fetch == DuePanes(old(index), t - q.duration, old(index).Keys) <= old(panes).Keys
      ensures old(panes).Keys - panes.Keys <= fetch
    {
      var windows;
      windows, fetch := GetWindowsToBeFired(t);
      var due := t - q.duration;
      var remove: set<(K, int)> := {};
      ghost var index0, fired0 := index, fired;
      for i := 0 to |windows|
        invariant panes == old(panes) && records == old(records) && wm == old(wm)
        invariant Unfired(index0, index, windows, i) && FiredNow(q, fired0, fired, records, windows, i)
        invariant forall y :: y in remove <==> Freed(index0, due, windows, i, y)
      {
        var s, k := windows[i].0, windows[i].1;
        assert windows[i] in windows;
        assert WindowOk(q, index0, records, wm, k, s);
        ghost var before := index;
        var free := FireWindow(k, s, due);
        UnfiredNext(index0, before, index, windows, i, due, free);
        forall y
          ensures y in remove + free <==> Freed(index0, due, windows, i + 1, y)
        {
          FreedNext(index0, due, windows, i, y);
        }
        remove := remove + free;
      }
      panes := panes - remove;
      FreedWithinFetch(q, old(panes), index0, records, wm, due, windows);
      WatermarkPanes(q, old(panes), panes, index0, records, old(wm), t, windows, remove);
      WatermarkWindows(q, index0, index, records, old(wm), t, windows);
      WatermarkFired(q, fired0, fired, index0, records, old(wm), t, windows);
      wm := t;
    }
  }

  // ------------------------------------------------------------- watermark

  ghost predicate DueWindows<K(!new)>(index: Index<K>, due: int, windows: seq<(int, K)>) {
    && (forall x :: x in windows <==> x in index && x.0 <= due)
    && (forall i, j :: 0 <= i < j < |windows| ==> windows[i] != windows[j])
  }

  ghost predicate Summed<R, K, V>(q: Query<R, K, V>, panes: Panes<K, V>, w: seq<R>, k: K, p: int)
    requires ValidTimes(q)
  {
    (k, p) in panes && panes[(k, p)] == PaneSum(q, w, k, p)
  }

  /** The panes that are not needed after the window x has fired. */
  function Frees<K>(index: Index<K>, due: int, x: (int, K)): set<(K, int)> {
    if x in index then set p | p in index[x] && p <= due :: (x.1, p) else {}
  }

  function PanesOf<K>(index: Index<K>, x: (int, K)): set<(K, int)> {
    if x in index then set p | p in index[x] :: (x.1, p) else {}
  }

  /** The panes of the given windows that are due. */
  function DuePanes<K(!new)>(index: Index<K>, due: int, windows: set<(int, K)>): set<(K, int)> {
    set x, p | x in windows && x in index && x.0 <= due && p in index[x] :: (x.1, p)
  }

  lemma DuePanesNext<K(!new)>(index: Index<K>, due: int, windows: set<(int, K)>, x: (int, K))
    ensures DuePanes(index, due, windows + {x}) ==
            DuePanes(index, due, windows) + if x.0 <= due then PanesOf(index, x) else {}
  {
  }

  /** Panes that a watermark frees were fetched for it, and have state. */
  lemma FreedWithinFetch<R, K(!new), V>(q: Query<R, K, V>, panes: Panes<K, V>, index: Index<K>, w: seq<R>, wm: int,
                                        due: int,
                                        windows: seq<(int, K)>)
    requires ValidTimes(q) && DueWindows(index, due, windows)
    requires forall k: K, p: int :: PaneOk(q, panes, w, wm, k, p)
    requires forall k: K, s: int :: WindowOk(q, index, w, wm, k, s)
    ensures forall y :: Freed(index, due, windows, |windows|, y) ==> y in DuePanes(index, due, index.Keys)
    ensures DuePanes(index, due, index.Keys) <= panes.Keys
  {
    forall y | Freed(index, due, windows, |windows|, y) ensures y in DuePanes(index, due, index.Keys) {
      var j :| 0 <= j < |windows| && y in Frees(index, due, windows[j]);
      assert windows[j] in windows;
    }
    forall y | y in DuePanes(index, due, index.Keys) ensures y in panes {
      var x, p :| x in index.Keys && x in index && x.0 <= due && p in index[x] && y == (x.1, p);
      assert WindowOk(q, index, w, wm, x.1, x.0);
      WindowPanes(q, panes, index, w, wm, x.1, x.0);
    }
  }

  ghost predicate Freed<K>(index: Index<K>, due: int, windows: seq<(int, K)>, n: nat, y: (K, int)) {
    exists j :: 0 <= j < n <= |windows| && y in Frees(index, due, windows[j])
  }

  lemma FreedNext<K>(index: Index<K>, due: int, windows: seq<(int, K)>, n: nat, y: (K, int))
    requires n < |windows|
    ensures Freed(index, due, windows, n + 1, y) <==>
            Freed(index, due, windows, n, y) || y in Frees(index, due, windows[n])
  {
    if Freed(index, due, windows, n, y) {
      var j :| 0 <= j < n && y in Frees(index, due, windows[j]);
      assert j < n + 1 && y in Frees(index, due, windows[j]);
    }
  }

  /** The first n windows are gone from the index. */
  ghost predicate Unfired<K(!new)>(index0: Index<K>, index: Index<K>, windows: seq<(int, K)>, n: nat) {
    && n <= |windows|
    && (forall x :: x in index <==> x in index0 && x !in windows[..n])
    && (forall x | x in index :: index[x] == index0[x])
    && (forall i, j :: 0 <= i < j < |windows| ==> windows[i] != windows[j])
  }

  lemma UnfiredNext<K(!new)>(index0: Index<K>, index: Index<K>, index': Index<K>, windows: seq<(int, K)>, n: nat,
                             due: int, free: set<(K, int)>)
    requires Unfired(index0, index, windows, n) && n < |windows| && windows[n] in index
    requires index' == index - {windows[n]} && free == Frees(index, due, windows[n])
    ensures Unfired(index0, index', windows, n + 1) && free == Frees(index0, due, windows[n])
  {
    assert windows[..n + 1] == windows[..n] + [windows[n]];
  }

  ghost predicate FiredNow<R, K, V>(q: Query<R, K, V>, before: seq<Result<K, V>>, after: seq<Result<K, V>>, w: seq<R>,
                                    windows: seq<(int, K)>, n: nat) {
    && n <= |windows| && |after| == |before| + n && before <= after
    && forall i | 0 <= i < n ::
         after[|before| + i] == Result(windows[i].1, windows[i].0, WindowSum(q, w, windows[i].1, windows[i].0))
  }

  lemma HasPaneAligned<R, K, V>(q: Query<R, K, V>, w: seq<R>, k: K, p: int)
    requires ValidTimes(q) && HasPane(q, w, k, p) && forall r | r in w :: q.timeOf(r) >= 0
    ensures Aligned(p, q.slide) && PaneIn(p, p, q.duration, q.slide)
  {
    var i :| 0 <= i < |w| && InPane(q, w[i], k, p);
    PaneStartAligned(q.timeOf(w[i]), q.slide);
    DurationAtLeastSlide(q.duration, q.slide);
  }

  /** The panes of an active window all have state, and they are what direct
      aggregation needs. */
  lemma WindowPanes<R, K(!new), V>(q: Query<R, K, V>, panes: Panes<K, V>, index: Index<K>, w: seq<R>, wm: int, k: K,
                                   s: int)
    requires ValidTimes(q) && (s, k) in index && WindowOk(q, index, w, wm, k, s)
    requires forall k: K, p: int :: PaneOk(q, panes, w, wm, k, p)
    ensures Aligned(s, q.slide)
    ensures forall p | p in index[(s, k)] :: Summed(q, panes, w, k, p) && PaneIn(p, s, q.duration, q.slide)
  {
    forall p | p in index[(s, k)] ensures Summed(q, panes, w, k, p) && PaneIn(p, s, q.duration, q.slide) {
      assert PaneOk(q, panes, w, wm, k, p);
    }
  }

  lemma WatermarkPanes<R, K(!new), V>(q: Query<R, K, V>, panes: Panes<K, V>, panes': Panes<K, V>, index: Index<K>,
                                      w: seq<R>, wm: int, t: int,
                                      windows: seq<(int, K)>, remove: set<(K, int)>)
    requires ValidTimes(q) && t >= wm && panes' == panes - remove && forall r | r in w :: q.timeOf(r) >= 0
    requires DueWindows(index, t - q.duration, windows)
    requires forall k: K, p: int :: PaneOk(q, panes, w, wm, k, p)
    requires forall k: K, s: int :: WindowOk(q, index, w, wm, k, s)
    requires forall y :: y in remove <==> Freed(index, t - q.duration, windows, |windows|, y)
    ensures forall k: K, p: int :: PaneOk(q, panes', w, t, k, p)
  {
    forall k: K, p: int ensures PaneOk(q, panes', w, t, k, p) {
      assert PaneOk(q, panes, w, wm, k, p);
      if (k, p) in panes && p <= t - q.duration {
        HasPaneAligned(q, w, k, p);
        assert WindowOk(q, index, w, wm, k, p);
        assert (p, k) in windows;
        var j :| 0 <= j < |windows| && windows[j] == (p, k);
        assert (k, p) in Frees(index, t - q.duration, windows[j]);
      }
    }
  }

  lemma WatermarkWindows<R, K(!new), V>(q: Query<R, K, V>, index: Index<K>, index': Index<K>, w: seq<R>, wm: int,
                                        t: int, windows: seq<(int, K)>)
    requires ValidTimes(q) && t >= wm && DueWindows(index, t - q.duration, windows)
    requires Unfired(index, index', windows, |windows|)
    requires forall k: K, s: int :: WindowOk(q, index, w, wm, k, s)
    ensures forall k: K, s: int :: WindowOk(q, index', w, t, k, s)
  {
    assert windows[..|windows|] == windows;
    forall k: K, s: int ensures WindowOk(q, index', w, t, k, s) { assert WindowOk(q, index, w, wm, k, s); }
  }

  lemma WatermarkFired<R, K(!new), V>(q: Query<R, K, V>, fired: seq<Result<K, V>>, fired': seq<Result<K, V>>,
                                      index: Index<K>, w: seq<R>,
                                      wm: int, t: int, windows: seq<(int, K)>)
    requires ValidTimes(q) && t >= wm && DueWindows(index, t - q.duration, windows)
    requires FiredOk(q, fired, w, wm) && FiredNow(q, fired, fired', w, windows, |windows|)
    requires forall k: K, s: int :: WindowOk(q, index, w, wm, k, s)
    ensures FiredOk(q, fired', w, t)
  {
    forall i | |fired| <= i < |fired'|
      ensures fired'[i].start <= t - q.duration && fired'[i].start > wm - q.duration
      ensures Aligned(fired'[i].start, q.slide)
      ensures fired'[i].value == WindowSum(q, w, fired'[i].key, fired'[i].start)
    {
      var x := windows[i - |fired|];
      assert x in windows && WindowOk(q, index, w, wm, x.1, x.0);
      assert fired'[|fired| + (i - |fired|)] == fired'[i];
    }
    forall i, j | 0 <= i < j < |fired'| ensures (fired'[i].key, fired'[i].start) != (fired'[j].key, fired'[j].start) {
      if j < |fired| {
        assert fired'[i] == fired[i] && fired'[j] == fired[j];
      } else if i < |fired| {
        assert fired'[i] == fired[i];
      } else {
        assert windows[i - |fired|] != windows[j - |fired|];
        assert fired'[|fired| + (i - |fired|)] == fired'[i] && fired'[|fired| + (j - |fired|)] == fired'[j];
      }
    }
    forall k: K, s: int ensures Fires(fired', k, s) <==> s <= t - q.duration && HasRecords(q, w, k, s) {
      assert Fires(fired, k, s) <==> s <= wm - q.duration && HasRecords(q, w, k, s);
      assert WindowOk(q, index, w, wm, k, s);
      FiresNow(q, fired, fired', w, windows, k, s);
    }
  }

  lemma FiresNow<R, K, V>(q: Query<R, K, V>, before: seq<Result<K, V>>, after: seq<Result<K, V>>, w: seq<R>,
                          windows: seq<(int, K)>, k: K, s: int)
    requires FiredNow(q, before, after, w, windows, |windows|)
    ensures Fires(after, k, s) <==> Fires(before, k, s) || (s, k) in windows
  {
    if i :| 0 <= i < |before| && before[i].key == k && before[i].start == s { assert after[i] == before[i]; }
    if (s, k) in windows {
      var i :| 0 <= i < |windows| && windows[i] == (s, k);
      assert after[|before| + i].key == k && after[|before| + i].start == s;
    }
    if i :| 0 <= i < |after| && after[i].key == k && after[i].start == s {
      if i < |before| { assert before[i] == after[i]; } else { assert windows[i - |before|] == (s, k); }
    }
  }

  // ----------------------------------------------------------- consequences

  /** Each window fires at most once, with the fold of exactly the records of its
      key in [start, start + duration), and every window that is over and has
      records has fired. */
  lemma WindowsEqualDirect<R(!new), K(!new), V(!new)>(q: Query<R, K, V>, fired: seq<Result<K, V>>, w: seq<R>, wm: int,
                                                      k: K, s: int)
    requires ValidTimes(q) && FiredOk(q, fired, w, wm) && Aligned(s, q.slide) && forall r | r in w :: q.timeOf(r) >= 0
    ensures (exists i :: 0 <= i < |fired| && fired[i] == Result(k, s, WindowSum(q, w, k, s)))
        <==> s + q.duration <= wm && exists r :: r in w && InWindow(q, r, k, s)
    ensures forall i, j | 0 <= i < |fired| && 0 <= j < |fired| ::
              fired[i].key == fired[j].key == k && fired[i].start == fired[j].start == s ==> i == j
  {
    assert Fires(fired, k, s) <==> s <= wm - q.duration && HasRecords(q, w, k, s);
    RecordsOf(q, w, k, s);
  }

  lemma RecordsOf<R(!new), K, V>(q: Query<R, K, V>, w: seq<R>, k: K, s: int)
    requires ValidTimes(q) && Aligned(s, q.slide) && forall r | r in w :: q.timeOf(r) >= 0
    ensures HasRecords(q, w, k, s) <==> exists r :: r in w && InWindow(q, r, k, s)
  {
    if HasRecords(q, w, k, s) {
      var p: int :| PaneIn(p, s, q.duration, q.slide) && HasPane(q, w, k, p);
      var i :| 0 <= i < |w| && InPane(q, w[i], k, p);
      RecordInWindow(q.timeOf(w[i]), s, q.duration, q.slide);
      assert w[i] in w && InWindow(q, w[i], k, s);
    }
    if r :| r in w && InWindow(q, r, k, s) {
      var i :| 0 <= i < |w| && w[i] == r;
      RecordInWindow(q.timeOf(r), s, q.duration, q.slide);
      var p := PaneStart(q.timeOf(r), q.slide);
      assert InPane(q, w[i], k, p);
      assert HasPane(q, w, k, p);
    }
  }

  /** Pane lifetime is exact: a pane has state exactly while some active window
      lists it, so nothing is freed early and nothing leaks. */
  lemma PaneLifetime<R(!new), K(!new), V>(q: Query<R, K, V>, panes: Panes<K, V>, index: Index<K>, w: seq<R>, wm: int,
                                          k: K, p: int)
    requires ValidTimes(q) && forall r | r in w :: q.timeOf(r) >= 0
    requires PaneOk(q, panes, w, wm, k, p) && forall s: int :: WindowOk(q, index, w, wm, k, s)
    ensures (k, p) in panes <==> exists s: int :: p in ListAt(index, s, k)
  {
    if (k, p) in panes {
      HasPaneAligned(q, w, k, p);
      assert WindowOk(q, index, w, wm, k, p);
      assert p in ListAt(index, p, k);
    }
    if s: int :| p in ListAt(index, s, k) {
      assert WindowOk(q, index, w, wm, k, s);
    }
  }
}

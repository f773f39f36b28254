/**
 Timers by timestamp and key; a watermark fires the expired ones in the order of
 their timestamps, each once.
 */
module Timers {
  import opened Types

  type Timestamp = t: int | -0x8000_0000_0000_0000 <= t < 0x8000_0000_0000_0000

  predicate Sorted(s: seq<Timestamp>) {
    forall i, j :: 0 <= i < j < |s| ==> s[i] <= s[j]
  }

  /** Puts x where it belongs in a strictly increasing list. */
  method Insert(s: seq<Timestamp>, x: Timestamp) returns (r: seq<Timestamp>)
    requires Sorted(s) && Distinct(s) && x !in s
    ensures Sorted(r) && Distinct(r) && forall y :: y in r <==> y in s || y == x
  {
    var i := 0;
    while i < |s| && s[i] < x
      invariant 0 <= i <= |s| && forall j | 0 <= j < i :: s[j] < x
    {
      i := i + 1;
    }
    r := s[..i] + [x] + s[i..];
    assert forall j | i <= j < |s| :: s[j] > x by {
      assert forall j | i <= j < |s| :: s[j] in s;
    }
    assert r[i] == x;
    forall y ensures y in r <==> y in s || y == x {
      assert s == s[..i] + s[i..];
    }
  }

  class Timer<K(==, !new)> {
    var active: map<Timestamp, set<K>>       // no timestamp is kept without keys
    var fired: seq<(Timestamp, K)>           // timers fired so far, in order

    ghost predicate Valid()
      reads this
    {
      forall t | t in active :: active[t] != {}
    }

    ghost predicate Active(t: Timestamp, k: K)
      reads this
    {
      t in active && k in active[t]
    }

    constructor ()
      ensures Valid() && active == map[] && fired == []
    {
      active, fired := map[], [];
    }

    method Add(k: K, t: Timestamp)
      requires Valid()
      modifies this`active
      ensures Valid() && forall s: Timestamp, j: K :: Active(s, j) <==> old(Active(s, j)) || (s == t && j == k)
    {
      active := active[t := (if t in active then active[t] else {}) + {k}];
    }

    method Remove(k: K, t: Timestamp)
      requires Valid()
      modifies this`active
      ensures Valid() && forall s: Timestamp, j: K :: Active(s, j) <==> old(Active(s, j)) && !(s == t && j == k)
    {
      if t in active {
        var rest := active[t] - {k};
        if rest == {} {
          assert forall j: K | j in active[t] :: j == k || j in rest;
          active := active - {t};
        } else {
          active := active[t := rest];
        }
      }
    }

    /** The timestamps at or before the watermark, sorted. */
    method ExpiredTimestamps(now: Timestamp) returns (times: seq<Timestamp>)
      ensures Sorted(times) && Distinct(times) && forall t :: t in times <==> t in active && t <= now
    {
      times := [];
      var rest := active.Keys;
      while rest != {}
        invariant rest <= active.Keys && Sorted(times) && Distinct(times)
        invariant forall t :: t in times <==> t in active && t !in rest && t <= now
        decreases rest
      {
        var t: Timestamp :| t in rest;
        rest := rest - {t};
        if t <= now {
          times := Insert(times, t);
        }
      }
    }

    /** All expired timers, by timestamp from low to high. */
    method GetExpiredTimers(now: Timestamp) returns (timers: seq<(Timestamp, K)>)
      requires Valid()
      ensures forall i, j :: 0 <= i < j < |timers| ==> timers[i].0 <= timers[j].0
      ensures Distinct(timers)
      ensures forall t: Timestamp, k: K :: (t, k) in timers <==> Active(t, k) && t <= now
    {
      var times := ExpiredTimestamps(now);
      timers := [];
      for i := 0 to |times|
        invariant forall m, n :: 0 <= m < n < |timers| ==> timers[m].0 <= timers[n].0
        invariant Distinct(timers)
        invariant forall t: Timestamp, k: K :: (t, k) in timers <==> t in times[..i] && Active(t, k)
      {
        var t := times[i];
        assert t in times && t !in times[..i];
        assert times[..i + 1] == times[..i] + [t];
        var rest := active[t];
        while rest != {}
          invariant rest <= active[t]
          invariant forall m, n :: 0 <= m < n < |timers| ==> timers[m].0 <= timers[n].0
          invariant forall m | 0 <= m < |timers| :: timers[m].0 <= t
          invariant Distinct(timers)
          invariant forall s: Timestamp, k: K :: (s, k) in timers <==>
                  (s in times[..i] && Active(s, k)) || (s == t && k in active[t] && k !in rest)
          decreases rest
        {
          var k :| k in rest;
          rest := rest - {k};
          assert (t, k) !in timers;
          timers := timers + [(t, k)];
        }
      }
      assert times[..|times|] == times;
    }

    /** Every timer at or before the watermark fires exactly once, in the order of
        the timestamps, and the others stay. */
    method ProcessProgressedWatermark(now: Timestamp)
      requires Valid()
      modifies this
      ensures Valid() && old(fired) <= fired
      ensures forall t: Timestamp, k: K :: Active(t, k) <==> old(Active(t, k)) && t > now
      ensures var done := fired[|old(fired)|..];
              && (forall i, j :: 0 <= i < j < |done| ==> done[i].0 <= done[j].0)
              && Distinct(done)
              && forall t: Timestamp, k: K :: (t, k) in done <==> old(Active(t, k)) && t <= now
    {
      var timers := GetExpiredTimers(now);
      for i := 0 to |timers|
        invariant Valid() && fired == old(fired) + timers[..i]
        invariant forall t: Timestamp, k: K :: Active(t, k) <==> old(Active(t, k)) && (t, k) !in timers[..i]
      {
        assert timers[..i + 1] == timers[..i] + [timers[i]];
        fired := fired + [timers[i]];
        Remove(timers[i].1, timers[i].0);
      }
      assert timers[..|timers|] == timers;
      assert fired[|old(fired)|..] == timers;
    }
  }
}

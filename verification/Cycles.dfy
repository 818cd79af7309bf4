/** Haul cycles of one track: how a load visit's time splits into queue and load, which visits
    make a cycle, and where a later analysis must restart. */
module Cycles {
  import opened Wrappers
  import opened Track

  const MIN_LOAD := 30_000_000  // a stop this long (microseconds) may be the loading
  const MIN_STEP_M := 5.0       // stops closer than this are one stop

  // ---- stops within a visit -------------------------------------------------------------------

  /** A stationary spell of a visit: its fixes [start, end), how many of them are stationary,
      and their centroid. */
  datatype Stop = Stop(start: nat, end: nat, n: nat, at: Point)

  predicate Moving(p: Params, f: Fix) {
    (if f.speed.Some? then f.speed.value else 0.0) >= p.moveKph
  }

  /** The first fix from `i` on that is moving, or that is not, as `m` says. */
  function NextMoving(p: Params, V: seq<Fix>, i: nat, m: bool): (r: nat)
    requires i <= |V|
    ensures i <= r <= |V|
    ensures forall j :: i <= j < r ==> Moving(p, V[j]) != m
    ensures r < |V| ==> Moving(p, V[r]) == m
    decreases |V| - i
  {
    if i == |V| || Moving(p, V[i]) == m then i else NextMoving(p, V, i + 1, m)
  }

  function SumLat(V: seq<Fix>, a: nat, b: nat): real
    requires a <= b <= |V|
  {
    if a == b then 0.0 else SumLat(V, a, b - 1) + V[b-1].lat
  }

  function SumLon(V: seq<Fix>, a: nat, b: nat): real
    requires a <= b <= |V|
  {
    if a == b then 0.0 else SumLon(V, a, b - 1) + V[b-1].lon
  }

  function Centroid(V: seq<Fix>, a: nat, b: nat): Point
    requires a < b <= |V|
  {
    Point(SumLat(V, a, b) / (b - a) as real, SumLon(V, a, b) / (b - a) as real)
  }

  function Weighted(a: real, n: nat, b: real, m: nat): real
    requires n + m > 0
  {
    (a * n as real + b * m as real) / (n + m) as real
  }

  /** Adds the run of stationary fixes [a, b): to the last stop when it is within a step of it. */
  function AddRun(p: Params, V: seq<Fix>, out: seq<Stop>, a: nat, b: nat): seq<Stop>
    requires a < b <= |V|
  {
    var c := Centroid(V, a, b);
    if |out| > 0 && p.dist(out[|out|-1].at, c) < MIN_STEP_M then
      var last := out[|out|-1];
      out[..|out|-1] + [Stop(last.start, b, last.n + (b - a),
                             Point(Weighted(last.at.lat, last.n, c.lat, b - a),
                                   Weighted(last.at.lon, last.n, c.lon, b - a)))]
    else
      out + [Stop(a, b, b - a, c)]
  }

  /** The stops found in `V` from fix `i` on, after those in `out`. */
  function StopsFrom(p: Params, V: seq<Fix>, i: nat, out: seq<Stop>): seq<Stop>
    requires i <= |V|
    decreases |V| - i
  {
    var a := NextMoving(p, V, i, false);
    if a == |V| then out
    else
      var b := NextMoving(p, V, a + 1, true);
      StopsFrom(p, V, b, AddRun(p, V, out, a, b))
  }

  /** Stops are in order, apart, within the visit, and begin and end at stationary fixes. */
  predicate StopsOrdered(p: Params, V: seq<Fix>, out: seq<Stop>) {
    && (forall m :: 0 <= m < |out| ==> out[m].start < out[m].end <= |V| && 0 < out[m].n <= out[m].end - out[m].start)
    && (forall m :: 0 <= m < |out| ==> !Moving(p, V[out[m].start]) && !Moving(p, V[out[m].end - 1]))
    && (forall m :: 0 <= m < |out| - 1 ==> out[m].end < out[m+1].start)
  }

  lemma AddRunOrdered(p: Params, V: seq<Fix>, out: seq<Stop>, a: nat, b: nat)
    requires a < b <= |V| && StopsOrdered(p, V, out) && !Moving(p, V[a]) && !Moving(p, V[b-1])
    requires |out| > 0 ==> out[|out|-1].end < a
    ensures var r := AddRun(p, V, out, a, b);
            StopsOrdered(p, V, r) && |r| > 0 && r[|r|-1].end == b
  {
    hide Centroid, Weighted, Moving;
    var r := AddRun(p, V, out, a, b);
    forall m | 0 <= m < |r|
      ensures r[m].start < r[m].end <= |V| && 0 < r[m].n <= r[m].end - r[m].start
      ensures !Moving(p, V[r[m].start]) && !Moving(p, V[r[m].end - 1])
      ensures m + 1 < |r| ==> r[m].end < r[m+1].start
    {
      if m < |out| {
        assert out[m].start < out[m].end;
      }
      if m > 0 && m - 1 < |out| - 1 {
        assert out[m-1].end < out[m].start;
      }
    }
  }

  lemma NextMovingStops(p: Params, V: seq<Fix>, a: nat, b: nat, i: nat)
    requires i <= a < |V| && a == NextMoving(p, V, i, false) && b == NextMoving(p, V, a + 1, true)
    ensures a < b <= |V| && !Moving(p, V[a]) && !Moving(p, V[b-1]) && (b < |V| ==> Moving(p, V[b]))
    ensures i < |V| && Moving(p, V[i]) ==> i < a
  {
    hide Moving;
  }

  lemma {:induction false} StopsFromOrdered(p: Params, V: seq<Fix>, i: nat, out: seq<Stop>)
    requires i <= |V| && StopsOrdered(p, V, out)
    requires |out| > 0 ==> out[|out|-1].end <= i && (i < |V| ==> Moving(p, V[i]))
    ensures StopsOrdered(p, V, StopsFrom(p, V, i, out))
    decreases |V| - i
  {
    hide AddRun, StopsOrdered, Moving;
    var a := NextMoving(p, V, i, false);
    if a < |V| {
      var b := NextMoving(p, V, a + 1, true);
      NextMovingStops(p, V, a, b, i);
      assert |out| > 0 ==> out[|out|-1].end < a;
      AddRunOrdered(p, V, out, a, b);
      StopsFromOrdered(p, V, b, AddRun(p, V, out, a, b));
    }
  }

  lemma StopsOf(p: Params, V: seq<Fix>)
    ensures StopsOrdered(p, V, StopsFrom(p, V, 0, []))
  {
    StopsFromOrdered(p, V, 0, []);
  }

  // ---- queue ----------------------------------------------------------------------------------

  /** The time of fix `i` of a visit that was left at `exit`. */
  function StopTime(V: seq<Fix>, exit: int, i: nat): int
    requires i <= |V|
  {
    if i < |V| then V[i].ts else exit
  }

  function StopLength(V: seq<Fix>, exit: int, s: Stop): int
    requires s.start < s.end <= |V|
  {
    StopTime(V, exit, s.end) - V[s.start].ts
  }

  /** The loading: the last stop, up to the `k`-th, that is long enough. */
  function LastLoading(V: seq<Fix>, exit: int, stops: seq<Stop>, k: nat): (r: Option<nat>)
    requires k <= |stops| && forall m :: 0 <= m < |stops| ==> stops[m].start < stops[m].end <= |V|
    ensures r.Some? ==> r.value < k && StopLength(V, exit, stops[r.value]) >= MIN_LOAD
    ensures forall m :: (if r.Some? then r.value else -1) < m < k ==> StopLength(V, exit, stops[m]) < MIN_LOAD
  {
    if k == 0 then None
    else if StopLength(V, exit, stops[k-1]) >= MIN_LOAD then Some(k - 1)
    else LastLoading(V, exit, stops, k - 1)
  }

  /** Time spent waiting in a load visit whose fixes are `V` and which was left at `exit`: from
      its first stop until it leaves the place before the one where it loads. */
  function Queue(p: Params, V: seq<Fix>, exit: int): int
  {
    StopsOf(p, V);
    var stops := StopsFrom(p, V, 0, []);
    if |stops| == 0 then 0
    else
      var l := LastLoading(V, exit, stops, |stops|);
      var loading := if l.Some? then l.value else |stops| - 1;
      assert loading > 0 ==> stops[loading-1].end < stops[loading].start;
      if loading == 0 then 0 else V[stops[loading-1].end].ts - V[stops[0].start].ts
  }

  lemma StopsStartOrder(p: Params, V: seq<Fix>, out: seq<Stop>, m: nat)
    requires StopsOrdered(p, V, out) && m < |out|
    ensures out[0].start <= out[m].start < out[m].end
  {
    if m > 0 {
      StopsStartOrder(p, V, out, m - 1);
    }
  }

  /** The wait is part of the visit: it is never negative and never longer than the time from
      the visit's entry to its exit. */
  lemma QueueWithinVisit(p: Params, V: seq<Fix>, exit: int)
    requires |V| > 0 && Sorted(V) && exit >= V[|V|-1].ts
    ensures 0 <= Queue(p, V, exit) <= exit - V[0].ts
  {
    hide StopsFrom, Moving;
    StopsOf(p, V);
    var stops := StopsFrom(p, V, 0, []);
    if |stops| > 0 {
      var l := LastLoading(V, exit, stops, |stops|);
      var loading := if l.Some? then l.value else |stops| - 1;
      if loading > 0 {
        StopsStartOrder(p, V, stops, loading - 1);
        assert stops[loading-1].end < stops[loading].start;
        assert V[0].ts <= V[stops[0].start].ts <= V[stops[loading-1].end].ts;
      }
    }
  }

  // ---- the zone a visit is credited to --------------------------------------------------------

  function Count(V: seq<Fix>, k: Kind, z: ZoneId): nat {
    if |V| == 0 then 0 else Count(V[..|V|-1], k, z) + (if V[|V|-1].Zone(k) == Some(z) then 1 else 0)
  }

  /** The best of `best` and the zones of the fixes from `i` on. */
  function Best(V: seq<Fix>, k: Kind, i: nat, best: Option<ZoneId>): (r: Option<ZoneId>)
    requires i <= |V|
    requires forall j :: 0 <= j < i && V[j].Zone(k).Some? ==>
      best.Some? && Count(V, k, V[j].Zone(k).value) <= Count(V, k, best.value)
    ensures forall j :: 0 <= j < |V| && V[j].Zone(k).Some? ==>
      r.Some? && Count(V, k, V[j].Zone(k).value) <= Count(V, k, r.value)
    decreases |V| - i
  {
    if i == |V| then best
    else if V[i].Zone(k).Some? && (best.None? || Count(V, k, V[i].Zone(k).value) > Count(V, k, best.value)) then
      Best(V, k, i + 1, V[i].Zone(k))
    else
      Best(V, k, i + 1, best)
  }

  /** The zone a visit is credited to: none has more of its fixes. */
  function CreditedZone(V: seq<Fix>, k: Kind): (r: Option<ZoneId>)
    ensures forall j :: 0 <= j < |V| && V[j].Zone(k).Some? ==>
      r.Some? && Count(V, k, V[j].Zone(k).value) <= Count(V, k, r.value)
  {
    Best(V, k, 0, None)
  }

  /** The zone of fix `f`, before which every fix lies in a zone with fewer, if in any. */
  ghost predicate FirstBest(V: seq<Fix>, k: Kind, z: Option<ZoneId>, f: int) {
    && 0 <= f < |V| && z.Some? && V[f].Zone(k) == z
    && forall j :: 0 <= j < f && V[j].Zone(k).Some? ==> Count(V, k, V[j].Zone(k).value) < Count(V, k, z.value)
  }

  lemma {:induction false} BestIsFirst(V: seq<Fix>, k: Kind, i: nat, best: Option<ZoneId>)
    requires i <= |V|
    requires forall j :: 0 <= j < i && V[j].Zone(k).Some? ==>
      best.Some? && Count(V, k, V[j].Zone(k).value) <= Count(V, k, best.value)
    requires best.Some? ==> exists f :: FirstBest(V, k, best, f)
    ensures var r := Best(V, k, i, best); r.Some? ==> exists f :: FirstBest(V, k, r, f)
    decreases |V| - i
  {
    hide Count;
    if i < |V| {
      if V[i].Zone(k).Some? && (best.None? || Count(V, k, V[i].Zone(k).value) > Count(V, k, best.value)) {
        assert FirstBest(V, k, V[i].Zone(k), i);
        BestIsFirst(V, k, i + 1, V[i].Zone(k));
      } else {
        BestIsFirst(V, k, i + 1, best);
      }
    }
  }

  /** A visit is credited to a zone if some fix of it lies in one; no zone holds more of its fixes, and
      of those that hold as many it was in none sooner. */
  lemma CreditedFirst(V: seq<Fix>, k: Kind)
    ensures var r := CreditedZone(V, k);
            && (r.Some? <==> exists j :: 0 <= j < |V| && V[j].Zone(k).Some?)
            && (forall j :: 0 <= j < |V| && V[j].Zone(k).Some? ==>
                Count(V, k, V[j].Zone(k).value) <= Count(V, k, r.value))
            && (r.Some? ==> exists f :: FirstBest(V, k, r, f))
  {
    hide Count;
    BestIsFirst(V, k, 0, None);
  }

  // ---- cycles ---------------------------------------------------------------------------------

  /** One complete haul cycle and its segments, in microseconds. */
  datatype Cycle = Cycle(start: int, end: int, cycleTime: int, queue: int, load: int, haul: int,
                         dump: int, ret: int, loadZone: Option<ZoneId>, dumpZone: Option<ZoneId>)

  function Max0(x: int): int {
    if x < 0 then 0 else x
  }

  /** The cycle of a load visit with fixes `L`, left at `lExit`, whose truck then made the dump
      visit with fixes `D`, left at `dExit`, and came back to load at `end`. */
  function MakeCycle(p: Params, L: seq<Fix>, lExit: int, D: seq<Fix>, dExit: int, end: int): Cycle
    requires |L| > 0 && |D| > 0
  {
    var q := Queue(p, L, lExit);
    Cycle(L[0].ts, end, end - L[0].ts, q, Max0(lExit - L[0].ts - q),
          D[0].ts - lExit, dExit - D[0].ts, end - dExit,
          CreditedZone(L, Load), CreditedZone(D, Dump))
  }

  /** The cycle of the load visit with fixes [s, e), the dump visit with fixes [d, de), and the
      next load visit's entry at `n`. */
  function CycleFrom(p: Params, F: seq<Fix>, s: nat, e: nat, d: nat, de: nat, n: nat): Cycle
    requires s < e <= d < de <= |F| && d < n < |F|
  {
    MakeCycle(p, F[s..e], F[e].ts, F[d..de], TimeAt(F, de), F[n].ts)
  }

  /** The cycle opened by the load visit starting at `s`, if it was completed: closed by the next
      load visit that counts, within the cap, with a dump visit that counts in between. */
  ghost function CycleAt(p: Params, F: seq<Fix>, s: nat): Option<Cycle>
    requires s < |F|
  {
    if !Long(p, F, Load, s) then None
    else
      var n := NextLong(p, F, Load, s + 1);
      if n == |F| || p.TooLong(F[n].ts - F[s].ts) then None
      else
        NextLongAfterEnd(p, F, s);
        var e := VisitEnd(p, F, Load, s);
        var d := NextLong(p, F, Dump, e);
        if d >= n then None
        else Some(CycleFrom(p, F, s, e, d, VisitEnd(p, F, Dump, d), n))
  }

  /** The same, taken apart. */
  lemma CycleAtIs(p: Params, F: seq<Fix>, s: nat, e: nat, d: nat, n: nat)
    requires s < |F| && Long(p, F, Load, s) && NextLong(p, F, Load, s + 1) == n < |F|
    requires !p.TooLong(F[n].ts - F[s].ts) && e == VisitEnd(p, F, Load, s)
    requires e <= n && d == NextLong(p, F, Dump, e)
    ensures d >= n ==> CycleAt(p, F, s) == None
    ensures d < n ==> Long(p, F, Dump, d) && StartAt(p, F, Dump, d)
    ensures d < n ==> CycleAt(p, F, s) == Some(CycleFrom(p, F, s, e, d, VisitEnd(p, F, Dump, d), n))
  {
  }

  lemma NextLongAfterEnd(p: Params, F: seq<Fix>, s: nat)
    requires Long(p, F, Load, s) && NextLong(p, F, Load, s + 1) < |F|
    ensures VisitEnd(p, F, Load, s) <= NextLong(p, F, Load, s + 1)
  {
    hide VisitEnd;
    assert NextStart(p, F, Load, s + 1) <= NextLong(p, F, Load, s + 1);
  }
}

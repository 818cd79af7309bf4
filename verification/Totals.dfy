/** What a bucket of metrics tells of the fixes in it, and the loops that compute it. */
module Totals {
  import opened Wrappers
  import opened Track
  import opened Cycles
  import opened Metrics
  import opened Restart
  import B = Buckets

  // ---- said of the fixes ----------------------------------------------------------------------

  predicate InBucket(w: int, F: seq<Fix>, b: int, i: nat)
    requires w > 0
  {
    i < |F| && Floor(F[i].ts, w) == b
  }

  /** The time from fix `i` of the bucket to the next counts: there is a next, later, and no more than a
      bucket's length later. */
  predicate Counts(w: int, F: seq<Fix>, b: int, i: nat)
    requires w > 0
  {
    InBucket(w, F, b, i) && i + 1 < |F| && F[i].ts < F[i+1].ts <= F[i].ts + w
  }

  function Moves(p: Params): Fix -> bool {
    (f: Fix) => f.speed.Some? && f.speed.value >= p.moveKph
  }

  function Idles(p: Params): Fix -> bool {
    (f: Fix) => f.speed.Some? && f.speed.value < p.moveKph
  }

  function LiesIn(z: ZoneId): Fix -> bool {
    (f: Fix) => z in f.zones
  }

  /** The time, of all that counts, that follows those of the first `n` fixes of which `P` holds. */
  function TimeAfter(w: int, F: seq<Fix>, b: int, P: Fix -> bool, n: nat): int
    requires n <= |F| && w > 0
  {
    if n == 0 then 0
    else TimeAfter(w, F, b, P, n - 1) + (if Counts(w, F, b, n - 1) && P(F[n-1]) then F[n].ts - F[n-1].ts else 0)
  }

  /** The way from each of them to the next fix. */
  function WayAfter(p: Params, w: int, F: seq<Fix>, b: int, P: Fix -> bool, n: nat): real
    requires n <= |F| && w > 0
  {
    if n == 0 then 0.0
    else
      WayAfter(p, w, F, b, P, n - 1) +
      (if Counts(w, F, b, n - 1) && P(F[n-1]) then p.dist(Point(F[n-1].lat, F[n-1].lon), Point(F[n].lat, F[n].lon))
       else 0.0)
  }

  /** The fixes of the bucket, among the first `n`, that have a speed. */
  function Clocked(w: int, F: seq<Fix>, b: int, n: nat): set<nat>
    requires n <= |F| && w > 0
  {
    set i: nat | i < n && InBucket(w, F, b, i) && F[i].speed.Some?
  }

  function SpeedSum(w: int, F: seq<Fix>, b: int, n: nat): real
    requires n <= |F| && w > 0
  {
    if n == 0 then 0.0
    else SpeedSum(w, F, b, n - 1) + (if n - 1 in Clocked(w, F, b, n) then F[n-1].speed.value else 0.0)
  }

  ghost predicate Fastest(w: int, F: seq<Fix>, b: int, n: nat, v: real)
    requires n <= |F| && w > 0
  {
    && v >= 0.0 && (forall i :: i in Clocked(w, F, b, n) ==> F[i].speed.value <= v)
    && (v == 0.0 || exists i :: i in Clocked(w, F, b, n) && F[i].speed.value == v)
  }

  ghost predicate Dwells(w: int, F: seq<Fix>, b: int, n: nat, dwell: map<ZoneId, int>)
    requires n <= |F| && w > 0
  {
    && (forall z :: z in dwell <==> exists i: nat :: i < n && Counts(w, F, b, i) && z in F[i].zones)
    && forall z :: z in dwell ==> dwell[z] == TimeAfter(w, F, b, LiesIn(z), n)
  }

  /** What the first `n` fixes make of the bucket starting at `b`. */
  ghost predicate Sums(p: Params, w: int, F: seq<Fix>, b: int, n: nat, c: Bucket)
    requires n <= |F| && w > 0
  {
    && c.moving == TimeAfter(w, F, b, Moves(p), n) && c.idle == TimeAfter(w, F, b, Idles(p), n)
    && c.distance == WayAfter(p, w, F, b, Moves(p), n) && Dwells(w, F, b, n, c.dwell)
    && c.speedSum == SpeedSum(w, F, b, n) && c.speedN == |Clocked(w, F, b, n)| && Fastest(w, F, b, n, c.maxSpeed)
  }

  // ---- one more fix ---------------------------------------------------------------------------

  lemma ClockedStep(w: int, F: seq<Fix>, b: int, n: nat)
    requires n < |F| && w > 0
    ensures Clocked(w, F, b, n + 1) ==
      Clocked(w, F, b, n) + (if InBucket(w, F, b, n) && F[n].speed.Some? then {n} else {})
    ensures n !in Clocked(w, F, b, n)
  {
    hide Floor;
  }

  lemma FastestStep(w: int, F: seq<Fix>, b: int, n: nat, v: real, u: real)
    requires n < |F| && w > 0 && Fastest(w, F, b, n, v) && InBucket(w, F, b, n)
    requires u == if F[n].speed.Some? && F[n].speed.value > v then F[n].speed.value else v
    ensures Fastest(w, F, b, n + 1, u)
  {
    ClockedStep(w, F, b, n);
    hide Clocked, InBucket;
    if u == v && v != 0.0 {
      var i :| i in Clocked(w, F, b, n) && F[i].speed.value == v;
      assert i in Clocked(w, F, b, n + 1);
    } else if u != v {
      assert n in Clocked(w, F, b, n + 1);
    }
  }

  lemma DwellsStep(w: int, F: seq<Fix>, b: int, n: nat, dwell: map<ZoneId, int>)
    requires n < |F| && w > 0 && Dwells(w, F, b, n, dwell)
    ensures Dwells(w, F, b, n + 1,
                   if Counts(w, F, b, n) then AddDwell(dwell, F[n].zones, F[n+1].ts - F[n].ts) else dwell)
  {
    hide InBucket, Floor;
    var next := if Counts(w, F, b, n) then AddDwell(dwell, F[n].zones, F[n+1].ts - F[n].ts) else dwell;
    forall z ensures z in next <==> exists i: nat :: i < n + 1 && Counts(w, F, b, i) && z in F[i].zones {
      if z in dwell {
        var i: nat :| i < n && Counts(w, F, b, i) && z in F[i].zones;
      }
    }
    forall z | z in next ensures next[z] == TimeAfter(w, F, b, LiesIn(z), n + 1) {
      if z !in dwell {
        NoDwell(w, F, b, z, n);
      }
    }
  }

  lemma {:induction false} NoDwell(w: int, F: seq<Fix>, b: int, z: ZoneId, n: nat)
    requires n <= |F| && w > 0 && forall i: nat :: i < n && Counts(w, F, b, i) ==> z !in F[i].zones
    ensures TimeAfter(w, F, b, LiesIn(z), n) == 0
  {
    hide Counts;
    if n > 0 {
      NoDwell(w, F, b, z, n - 1);
    }
  }

  /** What a fix of the bucket adds to it. */
  lemma AddFixIs(p: Params, w: int, F: seq<Fix>, b: int, n: nat, c: Bucket)
    requires n < |F| && w > 0 && InBucket(w, F, b, n)
    ensures var next, f, counts := AddFix(p, w, c, F, n), F[n], Counts(w, F, b, n);
            && next.moving == c.moving + (if counts && Moves(p)(f) then F[n+1].ts - f.ts else 0)
            && next.idle == c.idle + (if counts && Idles(p)(f) then F[n+1].ts - f.ts else 0)
            && next.distance == c.distance + (if counts && Moves(p)(f) then
                                                p.dist(Point(f.lat, f.lon), Point(F[n+1].lat, F[n+1].lon)) else 0.0)
            && next.dwell == (if counts then AddDwell(c.dwell, f.zones, F[n+1].ts - f.ts) else c.dwell)
            && next.speedSum == c.speedSum + (if f.speed.Some? then f.speed.value else 0.0)
            && next.speedN == c.speedN + (if f.speed.Some? then 1 else 0)
            && next.maxSpeed == (if f.speed.Some? && f.speed.value > c.maxSpeed then f.speed.value else c.maxSpeed)
  {
    hide AddDwell, Floor;
  }

  /** A fix of the bucket adds to it what it should. */
  lemma SumsStep(p: Params, w: int, F: seq<Fix>, b: int, n: nat, c: Bucket)
    requires n < |F| && w > 0 && Sums(p, w, F, b, n, c) && InBucket(w, F, b, n)
    ensures Sums(p, w, F, b, n + 1, AddFix(p, w, c, F, n))
  {
    ClockedStep(w, F, b, n);
    AddFixIs(p, w, F, b, n, c);
    hide AddFix, Clocked, Fastest, Dwells, InBucket, AddDwell, Counts, Moves, Idles;
    FastestStep(w, F, b, n, c.maxSpeed, AddFix(p, w, c, F, n).maxSpeed);
    DwellsStep(w, F, b, n, c.dwell);
  }

  lemma SumsOther(p: Params, w: int, F: seq<Fix>, b: int, n: nat, c: Bucket)
    requires n < |F| && w > 0 && Sums(p, w, F, b, n, c) && !InBucket(w, F, b, n)
    ensures Sums(p, w, F, b, n + 1, c)
  {
    ClockedStep(w, F, b, n);
    DwellsStep(w, F, b, n, c.dwell);
    hide Clocked, Dwells, InBucket;
  }

  lemma SumsNone(p: Params, w: int, F: seq<Fix>, b: int)
    requires w > 0
    ensures Sums(p, w, F, b, 0, EMPTY)
  {
    assert Clocked(w, F, b, 0) == {};
  }

  /** What a bucket is made to hold is what its fixes say. */
  lemma {:induction false} ContentSums(p: Params, w: int, F: seq<Fix>, b: int, n: nat)
    requires n <= |F| && w > 0
    ensures Sums(p, w, F, b, n, Content(p, w, F, b, n))
  {
    hide Sums, AddFix, Floor;
    if n == 0 {
      SumsNone(p, w, F, b);
    } else {
      ContentSums(p, w, F, b, n - 1);
      if InBucket(w, F, b, n - 1) {
        SumsStep(p, w, F, b, n - 1, Content(p, w, F, b, n - 1));
      } else {
        SumsOther(p, w, F, b, n - 1, Content(p, w, F, b, n - 1));
      }
    }
  }

  lemma AllSums(p: Params, w: int, F: seq<Fix>, cycles: seq<Cycle>)
    requires w > 0
    ensures forall b :: Sums(p, w, F, b, |F|, Content(p, w, F, b, |F|).(loads := EndsIn(cycles, w, b)))
  {
    forall b ensures Sums(p, w, F, b, |F|, Content(p, w, F, b, |F|).(loads := EndsIn(cycles, w, b))) {
      ContentSums(p, w, F, b, |F|);
      hide Content, TimeAfter, WayAfter, SpeedSum, Clocked, Fastest, Dwells;
    }
  }

  /** The metrics of a whole history, said of its fixes and cycles: a bucket for each that has a fix, with their
      times, distance, speeds and dwells, and as many loads as cycles end in it. */
  lemma FullSums(p: Params, w: int, F: seq<Fix>, b: int)
    requires w > 0
    ensures b in B.FullMetrics(p, w, F) <==> exists i: nat :: InBucket(w, F, b, i)
    ensures b in B.FullMetrics(p, w, F) ==>
      && Sums(p, w, F, b, |F|, B.FullMetrics(p, w, F)[b])
      && B.FullMetrics(p, w, F)[b].loads == |set y | y in Table(p, F) && b <= y.end < b + w|
  {
    ContentSums(p, w, F, b, |F|);
    hide Content, TimeAfter, WayAfter, SpeedSum, Clocked, Fastest, Dwells, Table;
    if i: nat :| InBucket(w, F, b, i) {
      assert Floor(F[i].ts, w) in Starts(F, w);
    }
    if b in Starts(F, w) {
      var i :| 0 <= i < |F| && Floor(F[i].ts, w) == b;
      assert InBucket(w, F, b, i);
      FloorAgain(F[i].ts, w);
      EndingIs(Table(p, F), w, b);
    }
  }

  lemma EndingIs(cycles: set<Cycle>, w: int, b: int)
    requires w > 0 && Floor(b, w) == b
    ensures B.Ending(cycles, w, b) == set y | y in cycles && b <= y.end < b + w
  {
    forall y | y in cycles ensures Floor(y.end, w) == b <==> b <= y.end < b + w {
      if b <= y.end < b + w {
        FloorMono(b, y.end, w);
        if Floor(y.end, w) > b {
          FloorBefore(b, y.end, w);
        }
      }
    }
    hide Floor;
  }

  // ---- the loops ------------------------------------------------------------------------------

  /** The loops of the program: over the fixes, then over the cycles. */
  method ComputeMetrics(p: Params, w: int, F: seq<Fix>, cycles: seq<Cycle>) returns (m: map<int, Bucket>)
    requires w > 0
    ensures m.Keys == Starts(F, w)
    ensures forall b :: b in m ==> m[b] == Content(p, w, F, b, |F|).(loads := EndsIn(cycles, w, b))
    ensures forall b :: b in m ==> Sums(p, w, F, b, |F|, m[b])
  {
    hide AddFix, Floor, Sums;
    m := map[];
    for i := 0 to |F|
      invariant m.Keys == Starts(F[..i], w)
      invariant forall b :: b in m ==> m[b] == Content(p, w, F, b, i)
      invariant forall b :: b !in m ==> Content(p, w, F, b, i) == EMPTY
    {
      var start := Floor(F[i].ts, w);
      var b := if start in m then m[start] else EMPTY;
      StartsStep(F, w, i);
      m := m[start := AddFix(p, w, b, F, i)];
    }
    assert F[..|F|] == F;
    NoLoads(p, w, F, |F|);
    for j := 0 to |cycles|
      invariant m.Keys == Starts(F, w)
      invariant forall b :: b in m ==> m[b] == Content(p, w, F, b, |F|).(loads := EndsIn(cycles[..j], w, b))
    {
      assert cycles[..j+1][..j] == cycles[..j];
      var key := Floor(cycles[j].end, w);
      if key in m {
        m := m[key := m[key].(loads := m[key].loads + 1)];
      }
    }
    assert cycles[..|cycles|] == cycles;
    AllSums(p, w, F, cycles);
  }

  lemma StartsStep(F: seq<Fix>, w: int, i: nat)
    requires w > 0 && i < |F|
    ensures Starts(F[..i+1], w) == Starts(F[..i], w) + {Floor(F[i].ts, w)}
  {
    var A, B := F[..i], F[..i+1];
    assert forall j :: 0 <= j < i ==> A[j] == B[j] == F[j];
    forall x | x in Starts(B, w) ensures x in Starts(A, w) + {Floor(F[i].ts, w)} {
      var j :| 0 <= j < |B| && x == Floor(B[j].ts, w);
      assert j < i ==> A[j] == B[j];
    }
    forall x | x in Starts(A, w) ensures x in Starts(B, w) {
      var j :| 0 <= j < |A| && x == Floor(A[j].ts, w);
      assert A[j] == B[j];
    }
    assert B[i] == F[i];
  }

  lemma {:induction false} NoLoads(p: Params, w: int, F: seq<Fix>, i: nat)
    requires w > 0 && i <= |F|
    ensures forall b :: Content(p, w, F, b, i).loads == 0
  {
    if i > 0 {
      NoLoads(p, w, F, i - 1);
    }
  }
}

/** The metric buckets of a whole history, and which of them new fixes leave as they are. */
module Buckets {
  import opened Wrappers
  import opened Track
  import opened Cycles
  import opened Analysis
  import opened Locality
  import opened Restart
  import opened Finality
  import opened Metrics
  import opened Recompute

  ghost function Ending(T: set<Cycle>, w: int, b: int): set<Cycle>
    requires w > 0
  {
    set y | y in T && Floor(y.end, w) == b
  }

  /** The buckets a rebuild of the whole track, with all its cycles, would store. */
  ghost function FullMetrics(p: Params, w: int, F: seq<Fix>): map<int, Bucket>
    requires w > 0
  {
    map b | b in Starts(F, w) :: Content(p, w, F, b, |F|).(loads := |Ending(Table(p, F), w, b)|)
  }

  function Members(list: seq<Cycle>): set<Cycle> {
    set y | y in list
  }

  ghost predicate Rising(list: seq<Cycle>) {
    forall i, j :: 0 <= i < j < |list| ==> list[i].start < list[j].start
  }

  /** Counting the cycles one after another counts each once. */
  lemma {:induction false} EachOnce(list: seq<Cycle>, w: int, b: int)
    requires w > 0 && Rising(list)
    ensures EndsIn(list, w, b) == |Ending(Members(list), w, b)|
  {
    hide Floor, Ending;
    if |list| > 0 {
      var init, last := list[..|list|-1], list[|list|-1];
      EachOnce(init, w, b);
      MembersStep(list);
      OneMore(Members(init), last, w, b);
      EndsInStep(list, w, b);
    } else {
      assert Ending(Members(list), w, b) == {} by {
        NoneEnding(w, b);
        assert Members(list) == {};
      }
    }
  }

  lemma NoneEnding(w: int, b: int)
    requires w > 0
    ensures Ending({}, w, b) == {}
  {
  }

  lemma MembersStep(list: seq<Cycle>)
    requires |list| > 0 && Rising(list)
    ensures list[|list|-1] !in Members(list[..|list|-1])
    ensures Members(list) == Members(list[..|list|-1]) + {list[|list|-1]}
  {
    assert list == list[..|list|-1] + [list[|list|-1]];
  }

  /** One more cycle counted. */
  lemma {:induction false} OneMore(done: set<Cycle>, y: Cycle, w: int, b: int)
    requires w > 0 && y !in done
    ensures |Ending(done + {y}, w, b)| == |Ending(done, w, b)| + (if Floor(y.end, w) == b then 1 else 0)
  {
    hide Floor;
    var A := Ending(done, w, b);
    assert Ending(done + {y}, w, b) == if Floor(y.end, w) == b then A + {y} else A;
  }

  lemma EndsInStep(list: seq<Cycle>, w: int, b: int)
    requires w > 0 && |list| > 0
    ensures EndsIn(list, w, b) ==
      EndsIn(list[..|list|-1], w, b) + (if Floor(list[|list|-1].end, w) == b then 1 else 0)
  {
  }

  lemma {:induction false} CyclesRise(p: Params, F: seq<Fix>, known: bool, from: Option<int>, i: nat)
    requires Sorted(F) && i <= |F|
    ensures Rising(CycleList(p, F, known, from, i))
    ensures forall y :: y in CycleList(p, F, known, from, i) ==> i > 0 && y.start <= F[i-1].ts
  {
    hide CycleAt, CanOpen;
    if i > 0 {
      CyclesRise(p, F, known, from, i - 1);
      if Opens(p, F, known, from, i - 1) {
        CycleStart(p, F, i - 1);
      }
    }
  }

  // ---- buckets that do not change -------------------------------------------------------------

  /** The bucket starting at `b` is the same, or missing, in both rebuilds. */
  ghost predicate SameBucket(p: Params, w: int, F: seq<Fix>, G: seq<Fix>, b: int)
    requires w > 0
  {
    var f, g := FullMetrics(p, w, F), FullMetrics(p, w, G);
    (b in f <==> b in g) && (b in f ==> f[b] == g[b])
  }

  /** The tracks have the same cycles ending before time `t`. */
  ghost predicate SameEnded(p: Params, F: seq<Fix>, G: seq<Fix>, t: int) {
    forall y: Cycle :: y.end < t ==> (y in Table(p, F) <==> y in Table(p, G))
  }

  lemma {:induction false} SameLoads(p: Params, w: int, F: seq<Fix>, G: seq<Fix>, b: int)
    requires w > 0 && SameEnded(p, F, G, b + w)
    ensures Ending(Table(p, F), w, b) == Ending(Table(p, G), w, b)
  {
    hide Table;
    forall y ensures y in Ending(Table(p, F), w, b) <==> y in Ending(Table(p, G), w, b) {
      BucketSpan(y.end, w);
    }
  }

  lemma {:induction false} KeptBucket(p: Params, w: int, F: seq<Fix>, G: seq<Fix>, n: nat, b: int)
    requires Sorted(F) && Sorted(G) && Share(F, G, n) && w > 0 && SameEnded(p, F, G, b + w)
    requires forall j :: n <= j < |F| ==> F[j].ts >= b + w
    requires forall j :: n <= j < |G| ==> G[j].ts >= b + w
    requires n > 0 ==> Floor(F[n-1].ts, w) != b || (Gap(w, F, n) && Gap(w, G, n))
    ensures SameBucket(p, w, F, G, b)
  {
    SameLoads(p, w, F, G, b);
    ShareBucket(p, w, F, G, n, b);
  }

  lemma Multiple(b: int, m: int, t: int, w: int, F: seq<Fix>)
    requires w > 0 && m == Floor(t, w) && b < m && b in Starts(F, w)
    ensures b + w <= m && Floor(b, w) == b
  {
    var i :| 0 <= i < |F| && b == Floor(F[i].ts, w);
    assert F[i].ts < Floor(t, w) by {
      if F[i].ts >= m {
        FloorAgain(t, w);
        FloorMono(m, F[i].ts, w);
      }
    }
    FloorBefore(F[i].ts, t, w);
    FloorAgain(F[i].ts, w);
  }

  /** The first bucket a tick after this one rewrites. */
  function NextMetricsFrom(p: Params, w: int, last: int): int
    requires w > 0
  {
    Floor(last - p.minVisit - p.minExit, w)
  }

  /** Fixes after a track's last leave every bucket before the cursor's. */
  lemma {:induction false} ExtendBuckets(p: Params, w: int, F: seq<Fix>, G: seq<Fix>, b: int)
    requires Sorted(F) && 0 < |F| && Extends(F, G) && p.Ok() && Firm(p, F)
    requires w > 0 && b < NextMetricsFrom(p, w, F[|F|-1].ts)
    ensures SameBucket(p, w, F, G, b)
  {
    hide Table, Firm, Floor, Content;
    var n, last := |F|, F[|F|-1].ts;
    if b in Starts(F, w) || b in Starts(G, w) {
      Multiple(b, NextMetricsFrom(p, w, last), last - p.minVisit - p.minExit, w, if b in Starts(F, w) then F else G);
      ShareAt(F, G, n, n - 1);
      FloorMono(last - p.minVisit - p.minExit, last, w);
      FloorIs(last - p.minVisit - p.minExit, w);
      forall y: Cycle | y.end < b + w ensures y in Table(p, F) <==> y in Table(p, G) {
        FirmSettled(p, F, G, y);
      }
      KeptBucket(p, w, F, G, n, b);
    }
  }

  /** Late fixes leave every bucket that ends one bucket before theirs. */
  lemma {:induction false} LateBuckets(p: Params, w: int, F: seq<Fix>, G: seq<Fix>, d: int, b: int)
    requires p.Ok() && Agree(F, G, d) && LastsTo(F, d) && LastsTo(G, d) && CalmBy(p, F, d, p.minVisit + p.minExit)
    requires w >= p.minVisit + p.minExit && b < Floor(d, w) - w
    ensures SameBucket(p, w, F, G, b)
  {
    hide Table, CalmBy, Floor, Content, FirstFrom, Agree, LastsTo;
    if b in Starts(F, w) {
      OneBefore(b, d, w, F);
      LateBucket(p, w, F, G, d, b);
    } else if b in Starts(G, w) {
      OneBefore(b, d, w, G);
      LateBucket(p, w, F, G, d, b);
    }
  }

  lemma {:induction false} LateBucket(p: Params, w: int, F: seq<Fix>, G: seq<Fix>, d: int, b: int)
    requires p.Ok() && Agree(F, G, d) && LastsTo(F, d) && LastsTo(G, d) && CalmBy(p, F, d, p.minVisit + p.minExit)
    requires w >= p.minVisit + p.minExit && b + 2 * w <= d
    ensures SameBucket(p, w, F, G, b)
  {
    hide Table, Calm, Content, FirstFrom, FullMetrics;
    var n := FirstFrom(F, d);
    AgreeIndex(F, G, d);
    if n > 0 {
      ShareAt(F, G, n, n - 1);
      GapBefore(w, F, n, b, d);
      GapBefore(w, G, n, b, d);
    }
    LaterThan(F, n, d);
    LaterThan(G, n, d);
    hide Floor, Gap, Agree;
    forall y: Cycle | y.end < b + w ensures y in Table(p, F) <==> y in Table(p, G) {
      SettledSame(p, F, G, n, d, y);
    }
    KeptBucket(p, w, F, G, n, b);
  }

  /** The fix before the late one lies in a later bucket than `b`, or a gap before it. */
  lemma GapBefore(w: int, F: seq<Fix>, n: nat, b: int, d: int)
    requires w > 0 && 0 < n <= |F| && (n < |F| ==> F[n].ts >= d) && b + 2 * w <= d
    ensures Floor(F[n-1].ts, w) != b || Gap(w, F, n)
  {
    FloorIs(F[n-1].ts, w);
    BucketSpan(F[n-1].ts, w);
  }

  lemma OneBefore(b: int, d: int, w: int, F: seq<Fix>)
    requires w > 0 && b < Floor(d, w) - w && b in Starts(F, w)
    ensures b + 2 * w <= Floor(d, w) <= d
  {
    var i :| 0 <= i < |F| && b == Floor(F[i].ts, w);
    FloorPrevious(d, w);
    FloorBelow(F[i].ts, d, w);
    FloorIs(d, w);
  }

  lemma FloorIs(t: int, w: int)
    requires w > 0
    ensures Floor(t, w) <= t
  {
  }

  /** A bucket that starts before another's predecessor ends before it begins. */
  lemma FloorBelow(t: int, d: int, w: int)
    requires w > 0 && Floor(t, w) < Floor(d, w) - w && Floor(Floor(d, w) - w, w) == Floor(d, w) - w
    ensures Floor(t, w) + 2 * w <= Floor(d, w)
  {
    hide Floor;
    FloorAgain(t, w);
    FloorBefore(Floor(t, w), Floor(d, w) - w, w);
  }

  // ---- buckets rewritten ----------------------------------------------------------------------

  /** The rows stored after buckets from `m` on are rewritten from the fixes from `m` on, the
      rebuilt cycles in `list`, and the kept cycles. */
  ghost function Rewritten(p: Params, w: int, stored: map<int, Bucket>, F: seq<Fix>, m: int,
                           list: seq<Cycle>, kept: set<Cycle>): map<int, Bucket>
    requires w > 0
  {
    var R := F[FirstFrom(F, m)..];
    map b | b in stored.Keys + Starts(R, w) && (b < m || b in Starts(R, w)) ::
      if b in Starts(R, w) then
        Content(p, w, R, b, |R|).(loads := EndsIn(list, w, b) + |Ending(kept, w, b)|)
      else stored[b]
  }

  lemma {:induction false} RowsFrom(p: Params, w: int, F: seq<Fix>, m: int, b: int)
    requires w > 0 && Floor(m, w) == m && Sorted(F)
    ensures var R := F[FirstFrom(F, m)..];
            && (b in Starts(R, w) <==> b in Starts(F, w) && b >= m)
            && (b >= m ==> Content(p, w, R, b, |R|) == Content(p, w, F, b, |F|))
  {
    hide Content, Floor, Starts, Sorted;
    var k := FirstFrom(F, m);
    var R := F[k..];
    if b >= m {
      CutContent(p, w, F, k, R, m, b, |F|);
    }
    assert forall i :: k <= i < |F| ==> F[i].ts >= m by {
      hide FirstFrom, Cut;
      assert k < |F| ==> F[k].ts >= m;
      assert Sorted(F);
      LaterThan(F, k, m);
    }
    hide FirstFrom;
    StartsFrom(F, w, m, k, b);
  }

  lemma LaterThan(F: seq<Fix>, k: nat, m: int)
    requires Sorted(F) && k <= |F| && (k < |F| ==> F[k].ts >= m)
    ensures forall i :: k <= i < |F| ==> F[i].ts >= m
  {
  }

  lemma {:induction false} StartsFrom(F: seq<Fix>, w: int, m: int, k: nat, b: int)
    requires w > 0 && Floor(m, w) == m && k <= |F|
    requires forall i :: 0 <= i < k ==> F[i].ts < m
    requires forall i :: k <= i < |F| ==> F[i].ts >= m
    ensures b in Starts(F[k..], w) <==> b in Starts(F, w) && b >= m
  {
    hide Floor;
    var R := F[k..];
    if b in Starts(R, w) {
      var i :| 0 <= i < |R| && b == Floor(R[i].ts, w);
      assert R[i] == F[i + k];
      FloorMono(m, F[i + k].ts, w);
    }
    if b in Starts(F, w) && b >= m {
      var i :| 0 <= i < |F| && b == Floor(F[i].ts, w);
      assert i >= k;
      assert F[i] == R[i - k];
    }
  }

  /** The bucket at `b` is what a rebuild of the whole track would store there. */
  ghost predicate RightAt(p: Params, w: int, F: seq<Fix>, metrics: map<int, Bucket>, b: int)
    requires w > 0
  {
    var full := FullMetrics(p, w, F);
    (b in metrics <==> b in full) && (b in full ==> metrics[b] == full[b])
  }

  lemma BucketSpan(t: int, w: int)
    requires w > 0
    ensures Floor(t, w) <= t < Floor(t, w) + w
  {
  }
}

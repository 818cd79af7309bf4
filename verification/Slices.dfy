/** The on-demand rebuild of one asset, cut into slices so that each transaction stays short: what
    one slice writes, what the last rebuild after them writes, and that together they write what
    one rebuild of the whole would. */
module Slices {
  import opened Wrappers
  import opened Track
  import opened Cycles
  import opened Analysis
  import opened Locality
  import opened Restart
  import opened Metrics
  import opened Recompute
  import opened Buckets
  import opened Refresh
  import opened Stored

  const CHUNK := 12 * 3_600_000_000
  const CHUNK_MIN := 3_600_000_000

  /** Where the next slice ends: at a bucket boundary, leaving the newest `lookback` whole. */
  function SliceEnd(p: Params, w: int, F: seq<Fix>, span: Span): Option<int>
    requires 0 < |F| && w > 0
  {
    var readFrom := Min(span.cyclesFrom, span.metricsFrom);
    var limit := F[|F|-1].ts - Lookback(p);
    if limit - readFrom >= CHUNK_MIN then Some(Floor(Min(readFrom + CHUNK, limit), w)) else None
  }

  /** Each slice moves on, when a bucket is no longer than the shortest slice. */
  lemma SliceAdvances(p: Params, w: int, F: seq<Fix>, span: Span)
    requires 0 < |F| && 0 < w <= CHUNK_MIN && SliceEnd(p, w, F, span).Some?
    ensures var end := SliceEnd(p, w, F, span).value;
            && Min(span.cyclesFrom, span.metricsFrom) < end <= F[|F|-1].ts - Lookback(p) && Floor(end, w) == end
            && (Floor(span.metricsFrom, w) == span.metricsFrom && Near(w, span) ==>
                span.cyclesFrom <= end && span.metricsFrom <= end)
  {
    var readFrom := Min(span.cyclesFrom, span.metricsFrom);
    var limit := F[|F|-1].ts - Lookback(p);
    FloorAgain(Min(readFrom + CHUNK, limit), w);
    var end := SliceEnd(p, w, F, span).value;
    if span.metricsFrom < end {
      FloorBefore(span.metricsFrom, end, w);
    } else {
      FloorPrevious(span.metricsFrom, w);
      if span.metricsFrom - w < end < span.metricsFrom {
        FloorBefore(span.metricsFrom - w, end, w);
      }
    }
  }

  /** The first bucket to rewrite is the one the window begins in, or the next. */
  predicate Near(w: int, span: Span) {
    span.cyclesFrom <= span.metricsFrom + w && span.metricsFrom <= span.cyclesFrom + w
  }

  /** The fixes before time `t`, and one more. */
  function ReadUntil(F: seq<Fix>, t: int): seq<Fix> {
    var hi := FirstFrom(F, t);
    if hi < |F| then F[..hi+1] else F
  }

  function Until(list: seq<Cycle>, end: int): (r: seq<Cycle>)
    ensures forall y :: y in r <==> y in list && y.start < end
  {
    if |list| == 0 then []
    else Until(list[..|list|-1], end) + (if list[|list|-1].start < end then [list[|list|-1]] else [])
  }

  lemma {:induction false} UntilRises(list: seq<Cycle>, end: int)
    requires Rising(list)
    ensures Rising(Until(list, end))
  {
    if |list| > 0 {
      var init := list[..|list|-1];
      UntilRises(init, end);
      forall y | y in Until(init, end) ensures y.start < list[|list|-1].start {
        assert y in init;
      }
    }
  }

  /** Cycles opening in [c, end) are replaced. */
  function ReplacedUntil(stored: set<Cycle>, list: seq<Cycle>, c: int, end: int): set<Cycle> {
    (set y | y in stored && (y.start < c || y.start >= end)) + (set z | z in list)
  }

  /** The track is calm where a slice up to `end` stops reading. */
  ghost predicate CalmPast(p: Params, F: seq<Fix>, end: int) {
    CalmBy(p, F, end + Lookback(p), p.minVisit + p.minExit)
  }

  /** A slice reads far enough past its end to build every cycle opening before it whole. */
  lemma {:induction false} SliceFound(p: Params, F: seq<Fix>, c: int, known: bool, end: int)
    requires Sorted(F) && p.Ok() && p.cap.Some? && CalmPast(p, F, end)
    requires Begins(p, F, c, known) && end + Lookback(p) <= F[|F|-1].ts
    ensures var P := ReadUntil(F, end + Lookback(p)); var found := Until(Found(p, P, c, known), end);
            && (forall y :: y in found <==> y in Table(p, F) && c <= y.start < end)
            && Rising(found)
  {
    var P := ReadUntil(F, end + Lookback(p));
    SliceShares(p, F, end);
    ReadBegins(p, F, end + Lookback(p), c, known);
    FoundAre(p, P, c, known);
    hide Begins, Table, Found, Until, ReadUntil, Sorted, Lookback, CalmPast;
    UntilRises(Found(p, P, c, known), end);
  }

  /** The fixes a slice reads settle every cycle that opens before its end. */
  lemma {:induction false} SliceShares(p: Params, F: seq<Fix>, end: int)
    requires Sorted(F) && 0 < |F| && p.Ok() && p.cap.Some? && end + Lookback(p) <= F[|F|-1].ts
    requires CalmPast(p, F, end)
    ensures var P := ReadUntil(F, end + Lookback(p)); P == F[..|P|] && SameBefore(p, F, P, end)
  {
    hide *;
    var t := end + Lookback(p);
    ReadParts(F, t);
    FarSame(p, F, ReadUntil(F, t), FirstFrom(F, t), t, end) by {
      LookbackReaches(p, F, end);
    }
  }

  lemma ReadParts(F: seq<Fix>, t: int)
    requires Sorted(F) && 0 < |F| && t <= F[|F|-1].ts
    ensures var P, n := ReadUntil(F, t), FirstFrom(F, t);
            Parts(F, P, n, t) && n < |F| && n < |P| && |P| <= |F| && P == F[..|P|]
  {
    var P, n := ReadUntil(F, t), FirstFrom(F, t);
    assert n < |F| && P[..n] == F[..n];
    ReadSorted(F, t);
  }

  lemma LookbackReaches(p: Params, F: seq<Fix>, end: int)
    requires p.cap.Some?
    ensures end + Reach(p) <= end + Lookback(p)
    ensures CalmPast(p, F, end) <==>
            Calm(p, F, FirstFrom(F, end + Lookback(p)), end + Lookback(p), p.minVisit + p.minExit)
  {
    hide Calm, FirstFrom;
  }

  /** What an analysis from `c` finds in a track. */
  lemma {:induction false} FoundAre(p: Params, P: seq<Fix>, c: int, known: bool)
    requires Sorted(P) && p.Ok() && Begins(p, P, c, known)
    ensures forall y :: y in Found(p, P, c, known) <==> y in Table(p, P) && y.start >= c
    ensures Rising(Found(p, P, c, known))
  {
    hide StartAt, Table, CycleList, LeadIndex;
    LeadWindow(p, P, c, known);
    var lo := LeadIndex(p, P, c);
    CutSorted(P, lo);
    hide Window, Sorted;
    forall y ensures y in Found(p, P, c, known) <==> y in Table(p, P) && y.start >= c {
      WindowCycles(p, P, lo, c, P[lo..], known, y);
    }
    CyclesRise(p, P[lo..], known, Some(c), |P[lo..]|);
  }

  lemma ShareFirst(p: Params, F: seq<Fix>, P: seq<Fix>)
    requires 0 < |P| <= |F| && P == F[..|P|]
    ensures F[0] == P[0] && (StartAt(p, P, Load, 0) ==> StartAt(p, F, Load, 0))
  {
  }

  lemma ReadSorted(F: seq<Fix>, t: int)
    requires Sorted(F)
    ensures var P := ReadUntil(F, t); Sorted(P) && |P| <= |F| && (0 < |F| ==> 0 < |P|) && P == F[..|P|]
  {
  }

  // ---- the buckets of a slice -----------------------------------------------------------------

  /** The rows stored after the buckets in [m, end) are rewritten from the fixes in `P`. */
  ghost function RewrittenUntil(p: Params, w: int, stored: map<int, Bucket>, P: seq<Fix>, m: int, end: int,
                                list: seq<Cycle>, kept: set<Cycle>): map<int, Bucket>
    requires w > 0
  {
    var next := Rewritten(p, w, map[], P, m, list, kept);
    (map b | b in stored && (b < m || b >= end) :: stored[b]) + (map b | b in next && b < end :: next[b])
  }

  /** A bucket over before the end of a slice is read whole. */
  lemma {:induction false} ReadWhole(p: Params, w: int, F: seq<Fix>, end: int, t: int, b: int)
    requires Sorted(F) && w > 0 && b + w <= end <= t && 0 < |F| && t <= F[|F|-1].ts
    ensures var P := ReadUntil(F, t);
            && Content(p, w, P, b, |P|) == Content(p, w, F, b, |F|)
            && (b in Starts(P, w) <==> b in Starts(F, w))
  {
    hide Content, FirstFrom, Floor;
    var n := FirstFrom(F, t);
    var P := ReadUntil(F, t);
    LaterThan(F, n, t);
    assert P[..|P|] == F[..|P|];
    assert Floor(P[|P|-1].ts, w) != b by {
      BucketSpan(P[|P|-1].ts, w);
    }
    ShareBucket(p, w, P, F, |P|, b);
  }

  /** A slice makes a bucket it rewrites right, when the cycles counted in it are. */
  lemma {:induction false} SliceBucket(p: Params, w: int, F: seq<Fix>, end: int, t: int, m: int, c: int,
                                       list: seq<Cycle>, stored: set<Cycle>, readFrom: int, b: int)
    requires Sorted(F) && 0 < |F| && w > 0 && p.cap.Some? && Floor(m, w) == m && end <= t <= F[|F|-1].ts
    requires readFrom <= m <= b && b + w <= end && Rising(list)
    requires EndingRight(p, w, F, stored, c, b) && ListRight(p, w, F, list, c, b)
    ensures var next := Rewritten(p, w, map[], ReadUntil(F, t), m, list, Kept(p, stored, c, readFrom));
            RightAt(p, w, F, next, b)
  {
    hide Content, Floor, Starts, FirstFrom, EndsIn, Table, Sorted, Kept, EndingRight, ListRight;
    var P := ReadUntil(F, t);
    ReadSorted(F, t);
    RowsFrom(p, w, P, m, b);
    ReadWhole(p, w, F, end, t, b);
    LoadsRight(p, w, F, c, list, stored, readFrom, b);
  }

  lemma NotBefore(p: Params, w: int, P: seq<Fix>, m: int, list: seq<Cycle>, kept: set<Cycle>, b: int)
    requires w > 0 && Floor(m, w) == m && Sorted(P) && b in Rewritten(p, w, map[], P, m, list, kept)
    ensures b >= m
  {
    hide Content, Floor, Starts, FirstFrom, EndsIn;
    RowsFrom(p, w, P, m, b);
  }

  lemma WholeBucket(p: Params, w: int, F: seq<Fix>, P: seq<Fix>, m: int, end: int, list: seq<Cycle>,
                    kept: set<Cycle>, b: int)
    requires w > 0 && Floor(end, w) == end && b < end && Sorted(P) && Floor(m, w) == m
    requires b in Rewritten(p, w, map[], P, m, list, kept) || b in FullMetrics(p, w, F)
    ensures b + w <= end
  {
    hide Content, Floor, Starts, FirstFrom, EndsIn, Table;
    RowsFrom(p, w, P, m, b);
    Multiple(b, end, end, w, if b in FullMetrics(p, w, F) then F else P);
  }

  // ---- what a rebuild writes ------------------------------------------------------------------

  datatype Rows = Rows(cycles: set<Cycle>, metrics: map<int, Bucket>)

  /** Whether a load visit at the first fix from `t` on starts there: the fix before is not inside. */
  predicate EntryKnownAt(F: seq<Fix>, t: int) {
    var n := FirstFrom(F, t);
    n == 0 || !F[n-1].In(Load)
  }

  /** The kept cycles a rebuild from `span` sees. */
  function SliceKept(p: Params, span: Span, cycles: set<Cycle>): set<Cycle>
    requires p.cap.Some?
  {
    Kept(p, cycles, span.cyclesFrom, Min(span.cyclesFrom, span.metricsFrom))
  }

  /** The cycles a slice writes. */
  ghost function SliceList(p: Params, F: seq<Fix>, span: Span, end: int, cycles: set<Cycle>): seq<Cycle>
    requires p.cap.Some?
  {
    Beyond(Until(Found(p, ReadUntil(F, end + Lookback(p)), span.cyclesFrom, span.known), end),
           SliceKept(p, span, cycles))
  }

  /** The rows after a slice up to `end`. */
  ghost function Sliced(p: Params, w: int, F: seq<Fix>, rows: Rows, span: Span, end: int): Rows
    requires p.cap.Some? && w > 0
  {
    var list := SliceList(p, F, span, end, rows.cycles);
    Rows(ReplacedUntil(rows.cycles, list, span.cyclesFrom, end),
         RewrittenUntil(p, w, rows.metrics, ReadUntil(F, end + Lookback(p)), span.metricsFrom, end, list,
                        SliceKept(p, span, rows.cycles)))
  }

  /** The rows after a rebuild to the newest fix. */
  ghost function Finished(p: Params, w: int, F: seq<Fix>, rows: Rows, span: Span): Rows
    requires p.cap.Some? && w > 0
  {
    var kept := SliceKept(p, span, rows.cycles);
    var list := Beyond(Found(p, F, span.cyclesFrom, span.known), kept);
    Rows(Replaced(rows.cycles, list, span.cyclesFrom), Rewritten(p, w, rows.metrics, F, span.metricsFrom, list, kept))
  }

  predicate Within(from: int, end: Option<int>, t: int) {
    from <= t && (end.Some? ==> t < end.value)
  }

  /** A cycle overlaps none of those kept. */
  predicate Free(kept: set<Cycle>, y: Cycle) {
    forall k :: k in kept ==> y.start >= k.end
  }

  ghost predicate SameRow(before: map<int, Bucket>, after: map<int, Bucket>, b: int) {
    (b in after <==> b in before) && (b in after ==> after[b] == before[b])
  }

  /** The cycles opened within the span that end in bucket `b` are those of the track. */
  ghost predicate EndingNew(p: Params, w: int, F: seq<Fix>, cycles: set<Cycle>, c: int, end: Option<int>, b: int)
    requires w > 0
  {
    forall y: Cycle :: Within(c, end, y.start) && Floor(y.end, w) == b ==> (y in cycles <==> y in Table(p, F))
  }

  /** What a rebuild from `span`, up to `end` if there is one, does to the rows: it replaces the
      cycles that open in its span by the track's, but for those overlapping a kept one; and it
      makes right every bucket in its span in which the cycles that end there are. */
  ghost predicate Wrote(p: Params, w: int, F: seq<Fix>, rows: Rows, next: Rows, span: Span, end: Option<int>)
    requires w > 0 && p.cap.Some?
  {
    var c, m := span.cyclesFrom, span.metricsFrom;
    && (forall y: Cycle :: !Within(c, end, y.start) ==> (y in next.cycles <==> y in rows.cycles))
    && (forall y: Cycle :: Within(c, end, y.start) ==>
          (y in next.cycles <==> y in Table(p, F) && Free(SliceKept(p, span, rows.cycles), y)))
    && (forall b :: !Within(m, end, b) ==> SameRow(rows.metrics, next.metrics, b))
    && next.metrics.Keys <= rows.metrics.Keys + Starts(F, w)
    && (forall b ::
          Within(m, end, b) && EndingRight(p, w, F, rows.cycles, c, b) && EndingNew(p, w, F, next.cycles, c, end, b) ==>
            RightAt(p, w, F, next.metrics, b))
  }

  /** The window at which a rebuild continues, or starts, is one that finds every cycle from there. */
  ghost predicate GoodStart(p: Params, w: int, F: seq<Fix>, span: Span)
    requires w > 0
  {
    Begins(p, F, span.cyclesFrom, span.known) && Floor(span.metricsFrom, w) == span.metricsFrom &&
      span.openThrough.None?
  }

  lemma {:induction false} SliceWroteCycles(p: Params, F: seq<Fix>, cycles: set<Cycle>, span: Span, end: int)
    requires Sorted(F) && p.Ok() && p.cap.Some? && CalmPast(p, F, end) && Begins(p, F, span.cyclesFrom, span.known)
    requires end + Lookback(p) <= F[|F|-1].ts
    ensures var list := SliceList(p, F, span, end, cycles);
            && Rising(list)
            && forall y :: y in list <==>
                 y in Table(p, F) && Within(span.cyclesFrom, Some(end), y.start) && Free(SliceKept(p, span, cycles), y)
  {
    hide CalmPast, Begins, Table, Found, ReadUntil, Until, Kept, Sorted, Rising, Lookback;
    SliceFound(p, F, span.cyclesFrom, span.known, end);
    BeyondWithin(Until(Found(p, ReadUntil(F, end + Lookback(p)), span.cyclesFrom, span.known), end),
                 SliceKept(p, span, cycles));
  }

  lemma {:induction false} AllWroteCycles(p: Params, F: seq<Fix>, cycles: set<Cycle>, span: Span)
    requires Sorted(F) && p.Ok() && p.cap.Some? && Begins(p, F, span.cyclesFrom, span.known)
    ensures var list := Beyond(Found(p, F, span.cyclesFrom, span.known), SliceKept(p, span, cycles));
            && Rising(list)
            && forall y :: y in list <==>
                 y in Table(p, F) && y.start >= span.cyclesFrom && Free(SliceKept(p, span, cycles), y)
  {
    hide Begins, Table, Found, Kept, Sorted, Rising;
    FoundAre(p, F, span.cyclesFrom, span.known);
    BeyondWithin(Found(p, F, span.cyclesFrom, span.known), SliceKept(p, span, cycles));
  }

  /** Cycles that open in the span and end in a bucket of it make its list right. */
  lemma {:induction false} ListedRight(p: Params, w: int, F: seq<Fix>, list: seq<Cycle>, cycles: set<Cycle>, c: int,
                                       end: Option<int>, b: int)
    requires w > 0 && Sorted(F) && p.cap.Some? && EndingNew(p, w, F, cycles, c, end, b)
    requires end.Some? ==> b + w <= end.value
    requires forall y: Cycle :: Within(c, end, y.start) ==> (y in cycles <==> y in list)
    requires forall y :: y in list ==> y in Table(p, F) && y.start >= c
    ensures ListRight(p, w, F, list, c, b)
  {
    hide Table, Floor;
    forall y: Cycle | Floor(y.end, w) == b && y in Table(p, F) && y.start >= c ensures y in list {
      CycleLength(p, F, y);
      BucketSpan(y.end, w);
    }
  }

  lemma {:induction false} WroteAll(p: Params, w: int, F: seq<Fix>, rows: Rows, span: Span)
    requires Sorted(F) && p.Ok() && p.cap.Some? && w > 0 && GoodStart(p, w, F, span)
    ensures Wrote(p, w, F, rows, Finished(p, w, F, rows, span), span, None)
  {
    var c, m := span.cyclesFrom, span.metricsFrom;
    AllWroteCycles(p, F, rows.cycles, span);
    hide Begins, Table, Found, Beyond, Sorted, Rising, Rewritten, Floor, Free, RightAt, EndingRight, EndingNew;
    var next := Finished(p, w, F, rows, span);
    var list := Beyond(Found(p, F, c, span.known), SliceKept(p, span, rows.cycles));
    forall b | b < m ensures SameRow(rows.metrics, next.metrics, b) {
      BucketKept(p, w, F, rows.metrics, m, list, SliceKept(p, span, rows.cycles), b);
    }
    RowsOfFixes(p, w, rows.metrics, F, m, list, SliceKept(p, span, rows.cycles));
    forall b | b >= m && EndingRight(p, w, F, rows.cycles, c, b) && EndingNew(p, w, F, next.cycles, c, None, b)
      ensures RightAt(p, w, F, next.metrics, b)
    {
      ListedRight(p, w, F, list, next.cycles, c, None, b);
      BucketRight(p, w, F, rows.metrics, m, c, list, rows.cycles, Min(c, m), b);
    }
  }

  /** A rebuild makes no bucket in which no fix falls. */
  lemma RowsOfFixes(p: Params, w: int, metrics: map<int, Bucket>, F: seq<Fix>, m: int, list: seq<Cycle>,
                    kept: set<Cycle>)
    requires w > 0
    ensures Rewritten(p, w, metrics, F, m, list, kept).Keys <= metrics.Keys + Starts(F, w)
  {
    hide Floor, Content, EndsIn, FirstFrom;
    var k := FirstFrom(F, m);
    assert forall i :: 0 <= i < |F[k..]| ==> F[k..][i] == F[i + k];
  }

  lemma SliceOfFixes(p: Params, w: int, metrics: map<int, Bucket>, F: seq<Fix>, t: int, m: int, end: int,
                     list: seq<Cycle>, kept: set<Cycle>)
    requires w > 0 && Sorted(F)
    ensures RewrittenUntil(p, w, metrics, ReadUntil(F, t), m, end, list, kept).Keys <= metrics.Keys + Starts(F, w)
  {
    hide Rewritten, Floor, ReadUntil, Sorted;
    ReadSorted(F, t);
    var P := ReadUntil(F, t);
    RowsOfFixes(p, w, map[], P, m, list, kept);
    assert forall i :: 0 <= i < |P| ==> P[i] == F[i];
  }

  lemma {:induction false} WroteSlice(p: Params, w: int, F: seq<Fix>, rows: Rows, span: Span, end: int)
    requires Sorted(F) && p.Ok() && p.cap.Some? && w > 0 && GoodStart(p, w, F, span) && CalmPast(p, F, end)
    requires Floor(end, w) == end && end + Lookback(p) <= F[|F|-1].ts
    ensures Wrote(p, w, F, rows, Sliced(p, w, F, rows, span, end), span, Some(end))
  {
    hide *;
    var next := Sliced(p, w, F, rows, span, end);
    var list := SliceList(p, F, span, end, rows.cycles);
    StartParts(p, w, F, span);
    SliceWroteCycles(p, F, rows.cycles, span, end);
    SliceOutside(p, w, F, rows.metrics, span, end, list, SliceKept(p, span, rows.cycles));
    SliceOfFixes(p, w, rows.metrics, F, end + Lookback(p), span.metricsFrom, end, list,
                 SliceKept(p, span, rows.cycles));
    forall b | Within(span.metricsFrom, Some(end), b) && EndingRight(p, w, F, rows.cycles, span.cyclesFrom, b)
            && EndingNew(p, w, F, next.cycles, span.cyclesFrom, Some(end), b)
      ensures RightAt(p, w, F, next.metrics, b)
    {
      SliceInside(p, w, F, rows, span, end, list, b);
    }
    MakeWrote(p, w, F, rows, span, end);
  }

  lemma MakeWrote(p: Params, w: int, F: seq<Fix>, rows: Rows, span: Span, end: int)
    requires p.cap.Some? && w > 0
    requires var next := Sliced(p, w, F, rows, span, end);
             && (forall y :: y in SliceList(p, F, span, end, rows.cycles) <==>
                   y in Table(p, F) && Within(span.cyclesFrom, Some(end), y.start) &&
                     Free(SliceKept(p, span, rows.cycles), y))
             && (forall b :: !Within(span.metricsFrom, Some(end), b) ==>
                   SameRow(rows.metrics,
                           RewrittenUntil(p, w, rows.metrics, ReadUntil(F, end + Lookback(p)), span.metricsFrom, end,
                                                        SliceList(p, F, span, end, rows.cycles),
                                                          SliceKept(p, span, rows.cycles)), b))
             && RewrittenUntil(p, w, rows.metrics, ReadUntil(F, end + Lookback(p)), span.metricsFrom, end,
                               SliceList(p, F, span, end, rows.cycles), SliceKept(p, span, rows.cycles)).Keys
                  <= rows.metrics.Keys + Starts(F, w)
             && (forall b ::
                   && Within(span.metricsFrom, Some(end), b)
                   && EndingRight(p, w, F, rows.cycles, span.cyclesFrom, b)
                   && EndingNew(p, w, F, next.cycles, span.cyclesFrom, Some(end), b) ==>
                     RightAt(p, w, F, next.metrics, b))
    ensures Wrote(p, w, F, rows, Sliced(p, w, F, rows, span, end), span, Some(end))
  {
    hide SliceList, SliceKept, RewrittenUntil, Free, Table, EndingRight, EndingNew, RightAt, SameRow, Lookback;
    hide ReadUntil, Starts;
  }

  /** The buckets outside a slice are as they were. */
  lemma {:induction false} SliceOutside(p: Params, w: int, F: seq<Fix>, metrics: map<int, Bucket>, span: Span, end: int,
                                        list: seq<Cycle>, kept: set<Cycle>)
    requires w > 0 && Sorted(F) && Floor(span.metricsFrom, w) == span.metricsFrom
    ensures var next := RewrittenUntil(p, w, metrics, ReadUntil(F, end + Lookback(p)), span.metricsFrom, end, list,
                                       kept);
            forall b :: !Within(span.metricsFrom, Some(end), b) ==> SameRow(metrics, next, b)
  {
    hide Floor, Rewritten, Lookback, ReadUntil, Sorted;
    ReadSorted(F, end + Lookback(p));
    var P, m := ReadUntil(F, end + Lookback(p)), span.metricsFrom;
    forall b | b < m && b in Rewritten(p, w, map[], P, m, list, kept) ensures false {
      NotBefore(p, w, P, m, list, kept, b);
    }
  }

  lemma {:induction false} SliceInside(p: Params, w: int, F: seq<Fix>, rows: Rows, span: Span, end: int,
                                       list: seq<Cycle>, b: int)
    requires Sorted(F) && 0 < |F| && p.Ok() && p.cap.Some? && w > 0 && Floor(span.metricsFrom, w) == span.metricsFrom
    requires Floor(end, w) == end && end + Lookback(p) <= F[|F|-1].ts && list == SliceList(p, F, span, end, rows.cycles)
    requires Rising(list) && forall y :: y in list ==> y in Table(p, F) && Within(span.cyclesFrom, Some(end), y.start)
    requires Within(span.metricsFrom, Some(end), b) && EndingRight(p, w, F, rows.cycles, span.cyclesFrom, b)
    requires EndingNew(p, w, F, Sliced(p, w, F, rows, span, end).cycles, span.cyclesFrom, Some(end), b)
    ensures RightAt(p, w, F, Sliced(p, w, F, rows, span, end).metrics, b)
  {
    hide Table, Rising, Sorted, Floor, Rewritten, ReadUntil, SliceList, EndingRight, EndingNew, Kept, FullMetrics;
    var c, m, t := span.cyclesFrom, span.metricsFrom, end + Lookback(p);
    var kept := SliceKept(p, span, rows.cycles);
    var P := ReadUntil(F, t);
    ReadSorted(F, t);
    var rewritten := Rewritten(p, w, map[], P, m, list, kept);
    if b in rewritten || b in FullMetrics(p, w, F) {
      WholeBucket(p, w, F, P, m, end, list, kept, b);
      ListedRight(p, w, F, list, Sliced(p, w, F, rows, span, end).cycles, c, Some(end), b);
      SliceBucket(p, w, F, end, t, m, c, list, rows.cycles, Min(c, m), b);
    }
  }

  // ---- when what it writes is right -----------------------------------------------------------

  /** After right rows it writes right ones. */
  lemma {:induction false} WroteRight(p: Params, w: int, F: seq<Fix>, rows: Rows, next: Rows, span: Span,
                                      end: Option<int>)
    requires Sorted(F) && p.cap.Some? && w > 0 && Wrote(p, w, F, rows, next, span, end)
    requires RightBefore(p, F, rows.cycles, span.cyclesFrom)
    ensures forall y: Cycle :: Within(span.cyclesFrom, end, y.start) ==> (y in next.cycles <==> y in Table(p, F))
    ensures forall b :: Within(span.metricsFrom, end, b) ==> RightAt(p, w, F, next.metrics, b)
  {
    hide Table, Sorted, Floor, RightAt;
    var c := span.cyclesFrom;
    forall y | y in Table(p, F) && y.start >= c ensures Free(SliceKept(p, span, rows.cycles), y) {
      forall k | k in SliceKept(p, span, rows.cycles) ensures y.start >= k.end {
        CyclesApart(p, F, k, y);
      }
    }
  }

  /** How far the slices so far have made the rows right, from the first window on. */
  ghost predicate RightUpTo(p: Params, w: int, F: seq<Fix>, rows: Rows, m0: int, span: Span)
    requires w > 0
  {
    && RightBefore(p, F, rows.cycles, span.cyclesFrom)
    && forall b :: m0 <= b < span.metricsFrom ==> RightAt(p, w, F, rows.metrics, b)
  }

  /** The rows before the first window are as they were. */
  ghost predicate Untouched(before: Rows, after: Rows, c0: int, m0: int) {
    && (forall y: Cycle :: y.start < c0 ==> (y in after.cycles <==> y in before.cycles))
    && forall b :: b < m0 ==> SameRow(before.metrics, after.metrics, b)
  }

  /** A slice carries right rows on to its end. */
  lemma {:induction false} SliceRight(p: Params, w: int, F: seq<Fix>, rows: Rows, span: Span, end: int, m0: int)
    requires Sorted(F) && p.Ok() && p.cap.Some? && w > 0 && GoodStart(p, w, F, span) && CalmPast(p, F, end)
    requires Floor(end, w) == end && end + Lookback(p) <= F[|F|-1].ts && span.cyclesFrom <= end
    requires RightUpTo(p, w, F, rows, m0, span)
    ensures RightUpTo(p, w, F, Sliced(p, w, F, rows, span, end), m0, Span(end, EntryKnownAt(F, end), end, None))
  {
    hide *;
    UpToParts(p, w, F, rows, m0, span);
    WroteSlice(p, w, F, rows, span, end);
    WroteRight(p, w, F, rows, Sliced(p, w, F, rows, span, end), span, Some(end));
    CarriedOn(p, w, F, rows, Sliced(p, w, F, rows, span, end), span, end, m0, EntryKnownAt(F, end));
  }

  lemma UpToParts(p: Params, w: int, F: seq<Fix>, rows: Rows, m0: int, span: Span)
    requires w > 0 && RightUpTo(p, w, F, rows, m0, span)
    ensures RightBefore(p, F, rows.cycles, span.cyclesFrom)
  {
  }

  lemma CarriedOn(p: Params, w: int, F: seq<Fix>, rows: Rows, next: Rows, span: Span, end: int, m0: int, known: bool)
    requires p.cap.Some? && w > 0 && RightUpTo(p, w, F, rows, m0, span) && Wrote(p, w, F, rows, next, span, Some(end))
    requires forall y: Cycle :: Within(span.cyclesFrom, Some(end), y.start) ==> (y in next.cycles <==> y in Table(p, F))
    requires forall b :: Within(span.metricsFrom, Some(end), b) ==> RightAt(p, w, F, next.metrics, b)
    ensures RightUpTo(p, w, F, next, m0, Span(end, known, end, None))
  {
    hide Table, EndingRight, EndingNew, Free, SliceKept, RightAt, SameRow;
    forall b | m0 <= b < end ensures RightAt(p, w, F, next.metrics, b) {
      if b < span.metricsFrom {
        SameAt(p, w, F, rows.metrics, next.metrics, b);
      }
    }
  }

  lemma SameAt(p: Params, w: int, F: seq<Fix>, metrics: map<int, Bucket>, next: map<int, Bucket>, b: int)
    requires w > 0 && SameRow(metrics, next, b)
    ensures RightAt(p, w, F, next, b) <==> RightAt(p, w, F, metrics, b)
  {
    hide FullMetrics;
  }

  lemma SliceListFrom(p: Params, F: seq<Fix>, span: Span, end: int, cycles: set<Cycle>)
    requires Sorted(F) && p.Ok() && p.cap.Some? && Begins(p, F, span.cyclesFrom, span.known)
    ensures forall y :: y in SliceList(p, F, span, end, cycles) ==> y.start >= span.cyclesFrom
  {
    hide *;
    var P := ReadUntil(F, end + Lookback(p));
    ReadBegins(p, F, end + Lookback(p), span.cyclesFrom, span.known);
    FoundAre(p, P, span.cyclesFrom, span.known);
    BeyondWithin(Until(Found(p, P, span.cyclesFrom, span.known), end), SliceKept(p, span, cycles));
    SliceListIs(p, F, span, end, cycles);
  }

  lemma SliceListIs(p: Params, F: seq<Fix>, span: Span, end: int, cycles: set<Cycle>)
    requires p.cap.Some?
    ensures SliceList(p, F, span, end, cycles) ==
      Beyond(Until(Found(p, ReadUntil(F, end + Lookback(p)), span.cyclesFrom, span.known), end),
             SliceKept(p, span, cycles))
  {
    hide Beyond, Until, Found, ReadUntil, Lookback, SliceKept;
  }

  /** What a slice reads begins where the track does. */
  lemma ReadBegins(p: Params, F: seq<Fix>, t: int, c: int, known: bool)
    requires Sorted(F) && Begins(p, F, c, known)
    ensures Sorted(ReadUntil(F, t)) && Begins(p, ReadUntil(F, t), c, known)
  {
    ReadSorted(F, t);
    ShareFirst(p, F, ReadUntil(F, t));
    hide StartAt, ReadUntil, Sorted;
  }

  /** Whatever was stored, it leaves what lies before its window. */
  lemma SliceUntouched(p: Params, w: int, F: seq<Fix>, rows: Rows, span: Span, end: int, c0: int, m0: int)
    requires Sorted(F) && p.Ok() && p.cap.Some? && w > 0 && GoodStart(p, w, F, span)
    requires c0 <= span.cyclesFrom && m0 <= span.metricsFrom
    ensures Untouched(rows, Sliced(p, w, F, rows, span, end), c0, m0)
  {
    hide *;
    StartParts(p, w, F, span);
    SliceOutside(p, w, F, rows.metrics, span, end, SliceList(p, F, span, end, rows.cycles),
                 SliceKept(p, span, rows.cycles));
    SliceListFrom(p, F, span, end, rows.cycles);
    LeftBefore(p, w, F, rows, span, end, c0, m0);
  }

  lemma LeftBefore(p: Params, w: int, F: seq<Fix>, rows: Rows, span: Span, end: int, c0: int, m0: int)
    requires p.cap.Some? && w > 0 && c0 <= span.cyclesFrom && m0 <= span.metricsFrom
    requires forall y :: y in SliceList(p, F, span, end, rows.cycles) ==> y.start >= span.cyclesFrom
    requires var next := RewrittenUntil(p, w, rows.metrics, ReadUntil(F, end + Lookback(p)), span.metricsFrom, end,
                                        SliceList(p, F, span, end, rows.cycles), SliceKept(p, span, rows.cycles));
             forall b :: !Within(span.metricsFrom, Some(end), b) ==> SameRow(rows.metrics, next, b)
    ensures Untouched(rows, Sliced(p, w, F, rows, span, end), c0, m0)
  {
    hide SliceList, SliceKept, RewrittenUntil, Lookback, ReadUntil, SameRow;
  }

  /** Nor does the last rebuild change that. */
  lemma FinishUntouched(p: Params, w: int, F: seq<Fix>, rows: Rows, span: Span, c0: int, m0: int)
    requires Sorted(F) && p.Ok() && p.cap.Some? && w > 0 && GoodStart(p, w, F, span)
    requires c0 <= span.cyclesFrom && m0 <= span.metricsFrom
    ensures Untouched(rows, Finished(p, w, F, rows, span), c0, m0)
  {
    WroteAll(p, w, F, rows, span);
    hide Finished, GoodStart, Sorted, SameRow, EndingRight, EndingNew, Free, RightAt, Table, SliceKept;
  }

  lemma StillUntouched(a: Rows, b: Rows, c: Rows, c0: int, m0: int)
    requires Untouched(a, b, c0, m0) && Untouched(b, c, c0, m0)
    ensures Untouched(a, c, c0, m0)
  {
    forall t | t < m0 ensures SameRow(a.metrics, c.metrics, t) {
      assert SameRow(a.metrics, b.metrics, t) && SameRow(b.metrics, c.metrics, t);
    }
  }

  lemma NextStartGood(p: Params, w: int, F: seq<Fix>, end: int)
    requires w > 0 && 0 < |F| && Floor(end, w) == end
    ensures GoodStart(p, w, F, Span(end, EntryKnownAt(F, end), end, None))
  {
    hide StartAt, Floor;
  }

  // ---- the loop -------------------------------------------------------------------------------

  method FindCycles(p: Params, P: seq<Fix>, c: int, known: bool) returns (found: seq<Cycle>)
    requires Sorted(P) && p.Ok()
    ensures found == Found(p, P, c, known)
  {
    var W := P[LeadIndex(p, P, c)..];
    var resume;
    found, resume := Analyse(p, W, known, Some(c));
  }

  method BucketsUntil(p: Params, w: int, stored: map<int, Bucket>, P: seq<Fix>, m: int, end: int, list: seq<Cycle>,
                      kept: set<Cycle>)
    returns (next: map<int, Bucket>)
    requires w > 0 && Sorted(P) && Floor(m, w) == m
    ensures next == RewrittenUntil(p, w, stored, P, m, end, list, kept)
  {
    hide Rewritten, Floor, FirstFrom;
    var rows := Rewrite(p, w, map[], P, m, list, kept);
    next := (map b | b in stored && (b < m || b >= end) :: stored[b]) + (map b | b in rows && b < end :: rows[b]);
  }

  /** One slice, up to `end`. */
  method WriteSlice(p: Params, w: int, F: seq<Fix>, rows: Rows, span: Span, end: int) returns (next: Rows)
    requires Sorted(F) && p.Ok() && p.cap.Some? && w > 0 && Floor(span.metricsFrom, w) == span.metricsFrom
    ensures next == Sliced(p, w, F, rows, span, end)
  {
    hide Found, ReadUntil, Until, Beyond, SliceKept, RewrittenUntil, ReplacedUntil, Floor, Lookback, Sorted;
    ReadSorted(F, end + Lookback(p));
    var P := ReadUntil(F, end + Lookback(p));
    var kept := SliceKept(p, span, rows.cycles);
    var found := FindCycles(p, P, span.cyclesFrom, span.known);
    var list := Beyond(Until(found, end), kept);
    var metrics := BucketsUntil(p, w, rows.metrics, P, span.metricsFrom, end, list, kept);
    next := Rows(ReplacedUntil(rows.cycles, list, span.cyclesFrom, end), metrics);
  }

  /** A rebuild to the newest fix. */
  method WriteAll(p: Params, w: int, F: seq<Fix>, rows: Rows, span: Span) returns (next: Rows, resume: Resume)
    requires Sorted(F) && 0 < |F| && p.Ok() && p.cap.Some? && w > 0 && Floor(span.metricsFrom, w) == span.metricsFrom
    ensures next == Finished(p, w, F, rows, span) && resume == ResumeFrom(p, F, span.cyclesFrom, span.known)
  {
    hide ResumeFrom, Found, Beyond, SliceKept, Rewritten, Replaced, Floor, Sorted;
    var kept := SliceKept(p, span, rows.cycles);
    var list;
    list, resume := AnalyseFrom(p, F, span.cyclesFrom, span.known, kept);
    var metrics := Rewrite(p, w, rows.metrics, F, span.metricsFrom, list, kept);
    next := Rows(Replaced(rows.cycles, list, span.cyclesFrom), metrics);
  }

  lemma MinIs(a: int, b: int)
    ensures Min(a, b) <= a && Min(a, b) <= b && (Min(a, b) == a || Min(a, b) == b)
  {
  }

  lemma StartParts(p: Params, w: int, F: seq<Fix>, span: Span)
    requires w > 0 && GoodStart(p, w, F, span)
    ensures 0 < |F| && Begins(p, F, span.cyclesFrom, span.known) && Floor(span.metricsFrom, w) == span.metricsFrom
  {
    hide StartAt, Floor;
  }

  lemma FinishedIs(p: Params, w: int, F: seq<Fix>, rows: Rows, span: Span)
    requires p.cap.Some? && w > 0
    ensures var kept := Kept(p, rows.cycles, span.cyclesFrom, Min(span.cyclesFrom, span.metricsFrom));
            var list := Beyond(Found(p, F, span.cyclesFrom, span.known), kept);
            Finished(p, w, F, rows, span) ==
              Rows(Replaced(rows.cycles, list, span.cyclesFrom),
                   Rewritten(p, w, rows.metrics, F, span.metricsFrom, list, kept))
  {
    hide Kept, Beyond, Found, Replaced, Rewritten, Min;
  }

  /** The window that follows a slice up to `end`. */
  function NextSpan(F: seq<Fix>, end: int): Span {
    Span(end, EntryKnownAt(F, end), end, None)
  }

  /** A window from which slices move on. */
  predicate Sliceable(w: int, F: seq<Fix>, span: Span) {
    0 < |F| && 0 < w <= CHUNK_MIN && Floor(span.metricsFrom, w) == span.metricsFrom && Near(w, span)
  }

  /** The window of the last rebuild of a track that no fix joins meanwhile. */
  function LastSpan(p: Params, w: int, F: seq<Fix>, span: Span): Span
    requires Sliceable(w, F, span) && p.cap.Some? && p.Ok()
    decreases F[|F|-1].ts - Min(span.cyclesFrom, span.metricsFrom)
  {
    match SliceEnd(p, w, F, span)
    case None => span
    case Some(end) =>
      SliceAdvances(p, w, F, span);
      LastSpan(p, w, F, NextSpan(F, end))
  }

  /** The rows that rebuild leaves. */
  ghost function RebuildRows(p: Params, w: int, F: seq<Fix>, rows: Rows, span: Span): Rows
    requires Sliceable(w, F, span) && p.cap.Some? && p.Ok()
    decreases F[|F|-1].ts - Min(span.cyclesFrom, span.metricsFrom)
  {
    match SliceEnd(p, w, F, span)
    case None => Finished(p, w, F, rows, span)
    case Some(end) =>
      SliceAdvances(p, w, F, span);
      RebuildRows(p, w, F, Sliced(p, w, F, rows, span, end), NextSpan(F, end))
  }

  /** The track is calm where each of its slices stops reading. */
  ghost predicate CalmSlices(p: Params, w: int, F: seq<Fix>, span: Span)
    requires Sliceable(w, F, span) && p.cap.Some? && p.Ok()
    decreases F[|F|-1].ts - Min(span.cyclesFrom, span.metricsFrom)
  {
    match SliceEnd(p, w, F, span)
    case None => true
    case Some(end) =>
      SliceAdvances(p, w, F, span);
      CalmPast(p, F, end) && CalmSlices(p, w, F, NextSpan(F, end))
  }

  lemma {:induction false} QuietSlices(p: Params, w: int, F: seq<Fix>, span: Span)
    requires Sliceable(w, F, span) && p.cap.Some? && p.Ok() && Quiet(p, F)
    ensures CalmSlices(p, w, F, span)
    decreases F[|F|-1].ts - Min(span.cyclesFrom, span.metricsFrom)
  {
    hide Quiet, CalmBy, Floor;
    if SliceEnd(p, w, F, span).Some? {
      var end := SliceEnd(p, w, F, span).value;
      SliceAdvances(p, w, F, span);
      QuietCalm(p, F, end + Lookback(p));
      QuietSlices(p, w, F, NextSpan(F, end));
    }
  }

  /** The last rebuild's window: it starts no earlier than the first, no later than the newest fix if
      that did not, and reaches back to the restart point exactly when the first did. */
  lemma {:induction false} LastSpanGood(p: Params, w: int, F: seq<Fix>, span: Span)
    requires Sorted(F) && Sliceable(w, F, span) && p.cap.Some? && p.Ok() && GoodStart(p, w, F, span)
    ensures var end := LastSpan(p, w, F, span);
            && GoodStart(p, w, F, end) && SliceEnd(p, w, F, end).None?
            && span.cyclesFrom <= end.cyclesFrom && span.metricsFrom <= end.metricsFrom
            && (Reaches(p, F, end.cyclesFrom) <==> Reaches(p, F, span.cyclesFrom))
            && (end == span || end.cyclesFrom <= F[|F|-1].ts - Lookback(p))
    decreases F[|F|-1].ts - Min(span.cyclesFrom, span.metricsFrom)
  {
    hide Reaches, Floor, StartAt;
    if SliceEnd(p, w, F, span).Some? {
      var end := SliceEnd(p, w, F, span).value;
      SliceAdvances(p, w, F, span);
      SliceReaches(p, F, span.cyclesFrom, end);
      NextStartGood(p, w, F, end);
      LastSpanGood(p, w, F, NextSpan(F, end));
    }
  }

  /** Whatever was stored, it leaves what lies before its window. */
  lemma {:induction false} RebuildUntouched(p: Params, w: int, F: seq<Fix>, rows: Rows, span: Span, c0: int, m0: int)
    requires Sorted(F) && Sliceable(w, F, span) && p.cap.Some? && p.Ok() && GoodStart(p, w, F, span)
    requires c0 <= span.cyclesFrom && m0 <= span.metricsFrom
    ensures Untouched(rows, RebuildRows(p, w, F, rows, span), c0, m0)
    decreases F[|F|-1].ts - Min(span.cyclesFrom, span.metricsFrom)
  {
    if SliceEnd(p, w, F, span).Some? {
      var end := SliceEnd(p, w, F, span).value;
      SliceAdvances(p, w, F, span);
      NextStartGood(p, w, F, end);
      hide Untouched, Sliced, GoodStart, Floor, Sorted;
      var next := Sliced(p, w, F, rows, span, end);
      SliceUntouched(p, w, F, rows, span, end, c0, m0);
      RebuildUntouched(p, w, F, next, NextSpan(F, end), c0, m0);
      StillUntouched(rows, next, RebuildRows(p, w, F, next, NextSpan(F, end)), c0, m0);
    } else {
      hide Untouched, Finished, GoodStart, Floor, Sorted;
      FinishUntouched(p, w, F, rows, span, c0, m0);
    }
  }

  /** It leaves every row right exactly when those before its window were, if the track is calm where
      each slice stops reading. */
  lemma {:induction false} RebuildRowsExact(p: Params, w: int, F: seq<Fix>, rows: Rows, span: Span)
    requires Sorted(F) && Sliceable(w, F, span) && p.cap.Some? && p.Ok() && GoodStart(p, w, F, span)
    requires CalmSlices(p, w, F, span)
    ensures var end := RebuildRows(p, w, F, rows, span);
            Right(p, w, F, end.cycles, end.metrics)
            <==> RowsBefore(p, w, F, rows.cycles, rows.metrics, span.cyclesFrom, span.metricsFrom)
    decreases F[|F|-1].ts - Min(span.cyclesFrom, span.metricsFrom)
  {
    if SliceEnd(p, w, F, span).Some? {
      var end := SliceEnd(p, w, F, span).value;
      SliceAdvances(p, w, F, span);
      NextStartGood(p, w, F, end);
      hide Right, RowsBefore, Sliced, GoodStart, Floor, Sorted, CalmPast;
      RebuildRowsExact(p, w, F, Sliced(p, w, F, rows, span, end), NextSpan(F, end));
      SliceCarries(p, w, F, rows, span, end);
    } else {
      hide Right, RowsBefore, Finished, GoodStart, Floor, Sorted;
      FinishExact(p, w, F, rows, span);
    }
  }

  lemma {:induction false} FinishExact(p: Params, w: int, F: seq<Fix>, rows: Rows, span: Span)
    requires Sorted(F) && p.Ok() && p.cap.Some? && w > 0 && GoodStart(p, w, F, span)
    ensures var end := Finished(p, w, F, rows, span);
            Right(p, w, F, end.cycles, end.metrics)
            <==> RowsBefore(p, w, F, rows.cycles, rows.metrics, span.cyclesFrom, span.metricsFrom)
  {
    StartParts(p, w, F, span);
    hide *;
    MinIs(span.cyclesFrom, span.metricsFrom);
    RebuildExact(p, w, F, rows.cycles, rows.metrics, span.cyclesFrom, span.metricsFrom, span.known,
                 Min(span.cyclesFrom, span.metricsFrom));
    FinishedIs(p, w, F, rows, span);
  }

  /** The rows before a slice's end are right after it exactly when those before its start were. */
  lemma {:induction false} SliceCarries(p: Params, w: int, F: seq<Fix>, rows: Rows, span: Span, end: int)
    requires Sorted(F) && p.Ok() && p.cap.Some? && w > 0 && GoodStart(p, w, F, span) && CalmPast(p, F, end)
    requires Floor(end, w) == end && end + Lookback(p) <= F[|F|-1].ts
    requires span.cyclesFrom <= end && span.metricsFrom <= end
    ensures var next := Sliced(p, w, F, rows, span, end);
            RowsBefore(p, w, F, next.cycles, next.metrics, end, end)
            <==> RowsBefore(p, w, F, rows.cycles, rows.metrics, span.cyclesFrom, span.metricsFrom)
  {
    hide *;
    var next := Sliced(p, w, F, rows, span, end);
    SliceUntouched(p, w, F, rows, span, end, span.cyclesFrom, span.metricsFrom);
    if RowsBefore(p, w, F, rows.cycles, rows.metrics, span.cyclesFrom, span.metricsFrom) {
      BeforeParts(p, w, F, rows, span);
      SliceRight(p, w, F, rows, span, end, span.metricsFrom);
      CarriedTo(p, w, F, rows, next, span, end);
    }
    if RowsBefore(p, w, F, next.cycles, next.metrics, end, end) {
      CarriedFrom(p, w, F, rows, next, span, end);
    }
  }

  lemma BeforeParts(p: Params, w: int, F: seq<Fix>, rows: Rows, span: Span)
    requires w > 0 && RowsBefore(p, w, F, rows.cycles, rows.metrics, span.cyclesFrom, span.metricsFrom)
    ensures RightUpTo(p, w, F, rows, span.metricsFrom, span)
  {
    hide RightBefore, RightAt;
  }

  lemma CarriedTo(p: Params, w: int, F: seq<Fix>, rows: Rows, next: Rows, span: Span, end: int)
    requires w > 0 && RowsBefore(p, w, F, rows.cycles, rows.metrics, span.cyclesFrom, span.metricsFrom)
    requires Untouched(rows, next, span.cyclesFrom, span.metricsFrom)
    requires RightUpTo(p, w, F, next, span.metricsFrom, Span(end, EntryKnownAt(F, end), end, None))
    ensures RowsBefore(p, w, F, next.cycles, next.metrics, end, end)
  {
    hide Table, RightAt, SameRow, EntryKnownAt;
    forall b | b < end ensures RightAt(p, w, F, next.metrics, b) {
      if b < span.metricsFrom {
        assert SameRow(rows.metrics, next.metrics, b);
        SameAt(p, w, F, rows.metrics, next.metrics, b);
      }
    }
  }

  lemma CarriedFrom(p: Params, w: int, F: seq<Fix>, rows: Rows, next: Rows, span: Span, end: int)
    requires w > 0 && RowsBefore(p, w, F, next.cycles, next.metrics, end, end)
    requires span.cyclesFrom <= end && span.metricsFrom <= end
    requires Untouched(rows, next, span.cyclesFrom, span.metricsFrom)
    ensures RowsBefore(p, w, F, rows.cycles, rows.metrics, span.cyclesFrom, span.metricsFrom)
  {
    hide Table, RightAt, SameRow;
    forall b | b < span.metricsFrom ensures RightAt(p, w, F, rows.metrics, b) {
      assert SameRow(rows.metrics, next.metrics, b);
      SameAt(p, w, F, rows.metrics, next.metrics, b);
    }
  }

  /** The on-demand rebuild of a track that no fix joins meanwhile: slices, then one last rebuild to
      the newest fix.  From any window, it finds the restart point exactly when the window reaches
      back to it, and leaves every row right exactly when the rows before the window were. */
  method Rebuild(p: Params, w: int, F: seq<Fix>, stored: Rows, first: Span) returns (rows: Rows, resume: Resume)
    requires Sorted(F) && p.Ok() && p.cap.Some? && Sliceable(w, F, first) && GoodStart(p, w, F, first)
    ensures rows == RebuildRows(p, w, F, stored, first)
    ensures resume == FullResume(p, F) <==> Reaches(p, F, first.cyclesFrom)
    ensures CalmSlices(p, w, F, first) ==>
      (Right(p, w, F, rows.cycles, rows.metrics)
       <==> RowsBefore(p, w, F, stored.cycles, stored.metrics, first.cyclesFrom, first.metricsFrom))
    ensures Untouched(stored, rows, first.cyclesFrom, first.metricsFrom)
  {
    hide *;
    rows := stored;
    var span := first;
    SpanParts(w, F, span);
    var end := SliceEnd(p, w, F, span);
    while end.Some?
      invariant 0 < |F| && w > 0 && GoodStart(p, w, F, span) && Sliceable(w, F, span)
      invariant end == SliceEnd(p, w, F, span)
      invariant LastSpan(p, w, F, span) == LastSpan(p, w, F, first)
      invariant RebuildRows(p, w, F, rows, span) == RebuildRows(p, w, F, stored, first)
      decreases F[|F|-1].ts - Min(span.cyclesFrom, span.metricsFrom)
    {
      SpanStep(p, w, F, rows, span, end.value);
      rows := WriteSlice(p, w, F, rows, span, end.value);
      span := NextSpan(F, end.value);
      end := SliceEnd(p, w, F, span);
    }
    SpanDone(p, w, F, rows, span);
    LastSpanGood(p, w, F, first);
    RebuildUntouched(p, w, F, stored, first, first.cyclesFrom, first.metricsFrom);
    if CalmSlices(p, w, F, first) {
      RebuildRowsExact(p, w, F, stored, first);
    }
    RebuildRight(p, F, {}, span.cyclesFrom, span.known, span.cyclesFrom);
    rows, resume := WriteAll(p, w, F, rows, span);
  }

  lemma SpanParts(w: int, F: seq<Fix>, span: Span)
    requires Sliceable(w, F, span)
    ensures 0 < |F| && 0 < w <= CHUNK_MIN && Floor(span.metricsFrom, w) == span.metricsFrom
  {
    hide Floor, Near;
  }

  lemma SpanStep(p: Params, w: int, F: seq<Fix>, rows: Rows, span: Span, end: int)
    requires Sorted(F) && Sliceable(w, F, span) && p.cap.Some? && p.Ok() && GoodStart(p, w, F, span)
    requires SliceEnd(p, w, F, span) == Some(end)
    ensures Floor(span.metricsFrom, w) == span.metricsFrom
    ensures var next := NextSpan(F, end);
            && Sliceable(w, F, next) && GoodStart(p, w, F, next) && LastSpan(p, w, F, span) == LastSpan(p, w, F, next)
            && RebuildRows(p, w, F, rows, span) == RebuildRows(p, w, F, Sliced(p, w, F, rows, span, end), next)
            && Min(span.cyclesFrom, span.metricsFrom) < Min(next.cyclesFrom, next.metricsFrom) <= F[|F|-1].ts
  {
    hide Sliced, Finished, Floor, Sorted, GoodStart;
    SliceAdvances(p, w, F, span);
    NextStartGood(p, w, F, end);
  }

  lemma SpanDone(p: Params, w: int, F: seq<Fix>, rows: Rows, span: Span)
    requires Sliceable(w, F, span) && p.cap.Some? && p.Ok() && SliceEnd(p, w, F, span).None? && GoodStart(p, w, F, span)
    ensures LastSpan(p, w, F, span) == span && RebuildRows(p, w, F, rows, span) == Finished(p, w, F, rows, span)
    ensures Floor(span.metricsFrom, w) == span.metricsFrom && Begins(p, F, span.cyclesFrom, span.known)
  {
    hide Finished, Floor, StartAt;
  }

  /** Wherever a slice starts, the restart point lies past its end. */
  lemma SliceReaches(p: Params, F: seq<Fix>, c: int, end: int)
    requires Sorted(F) && 0 < |F| && p.Ok() && p.cap.Some? && c <= end <= F[|F|-1].ts - Lookback(p)
    ensures Reaches(p, F, c) && Reaches(p, F, end) && end <= F[|F|-1].ts
  {
    RestartWithinReach(p, F);
    hide FullResume;
  }

  // ---- where an on-demand rebuild starts ------------------------------------------------------

  /** The lookback before the time asked for, or the first fix. */
  function OnDemandWindow(p: Params, w: int, F: seq<Fix>, start: Option<int>, stored: set<int>): Span
    requires 0 < |F| && w > 0
  {
    var (c, known) := match start case None => (F[0].ts, true) case Some(t) => StartAtTime(F, t - Lookback(p));
    Span(c, known, MetricsStart(w, c, known, stored), None)
  }

  /** The window leaves out the bucket that the track begins in. */
  predicate LeavesFirst(w: int, F: seq<Fix>, span: Span)
    requires 0 < |F| && w > 0
  {
    span.cyclesFrom == F[0].ts && span.metricsFrom > Floor(F[0].ts, w)
  }

  /** A window at the first fix does that if the fix lies inside a bucket that is stored. */
  lemma OnDemandSpan(p: Params, w: int, F: seq<Fix>, start: Option<int>, stored: set<int>)
    requires 0 < |F| && w > 0
    ensures var span := OnDemandWindow(p, w, F, start, stored); var b := Floor(F[0].ts, w);
            && (start.None? || start.value - Lookback(p) <= F[0].ts ==>
                  span.cyclesFrom == F[0].ts && span.known
                  && span.metricsFrom == if b < F[0].ts && b in stored then b + w else b)
            && (start.Some? && start.value - Lookback(p) > F[0].ts ==>
                  span.cyclesFrom == start.value - Lookback(p) && span.metricsFrom == Floor(span.cyclesFrom, w))
  {
    hide Floor;
  }

  /** From any time asked for, the window finds every cycle from where it starts on. */
  lemma {:induction false} OnDemandStart(p: Params, w: int, F: seq<Fix>, start: Option<int>, stored: set<int>)
    requires 0 < |F| && w > 0
    ensures var span := OnDemandWindow(p, w, F, start, stored); GoodStart(p, w, F, span) && Near(w, span)
  {
    hide StartAt;
    var span := OnDemandWindow(p, w, F, start, stored);
    FloorAgain(span.cyclesFrom, w);
    FloorNext(Floor(span.cyclesFrom, w), w);
  }

  /** It reaches back to the restart point, and so gives the right one, if and only if the time asked
      for is no more than the lookback past a load entry the track restarts from.  Up to the newest fix
      every time will do; but past it, while less than the lookback past it, lies one that will not,
      whenever the track restarts from before its newest fix. */
  lemma {:induction false} OnDemandExact(p: Params, w: int, F: seq<Fix>, start: Option<int>, stored: set<int>)
    requires Sorted(F) && 0 < |F| && p.Ok() && p.cap.Some? && w > 0
    ensures var span := OnDemandWindow(p, w, F, start, stored); var r := FullResume(p, F);
            ResumeFrom(p, F, span.cyclesFrom, span.known) == r
            <==> (start.Some? && r.entryKnown ==> start.value <= r.ts + Lookback(p))
    ensures var last, r := F[|F|-1].ts, FullResume(p, F).ts;
            && (start.Some? && start.value <= last ==> start.value <= r + Lookback(p))
            && (r < last ==> last < r + Lookback(p) + 1 <= last + Lookback(p))
  {
    OnDemandStart(p, w, F, start, stored);
    RestartAtLeastFirst(p, F);
    RestartWithinReach(p, F);
    var span := OnDemandWindow(p, w, F, start, stored);
    RebuildRight(p, F, {}, span.cyclesFrom, span.known, 0);
    hide FullResume, ResumeFrom, StartAt, Found, MetricsStart;
  }
}

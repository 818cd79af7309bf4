/** What holds of one asset's stored rows between any two operations: which of them are those of
    which track, and that every rebuild, in slices or whole, keeps it so. */
module Standing {
  import opened Wrappers
  import opened Track
  import opened Cycles
  import opened Analysis
  import opened Locality
  import opened Restart
  import opened Finality
  import opened Metrics
  import opened Recompute
  import opened Buckets
  import opened Refresh
  import opened Stored
  import opened Slices
  import opened Runs

  // ---- the rows -------------------------------------------------------------------------------

  /** A cycle long over by time `t`. */
  ghost predicate Settled(p: Params, y: Cycle, t: int) {
    y.end + p.minVisit + p.minExit <= t
  }

  /** A rebuild has moved the cursor. */
  predicate Computed(cur: Cursor) {
    cur.resume.Some? && cur.metricsFrom.Some? && cur.through.Some?
  }

  /** Nothing earlier than this can have been stored unseen by the cursor. */
  function Horizon(cur: Cursor): int
    requires cur.dirty.Some? || cur.through.Some?
  {
    if cur.dirty.Some? then cur.dirty.value else cur.through.value
  }

  /** A track that differs from the cursor's, `B`, by nothing earlier than that. */
  ghost predicate Kin(cur: Cursor, B: seq<Fix>, X: seq<Fix>) {
    match cur.dirty
    case None => Sorted(B) && Extends(B, X)
    case Some(d) => Agree(B, X, d) && LastsTo(X, d)
  }

  /** The cycle is one of such a track. */
  ghost predicate OfKin(p: Params, cur: Cursor, B: seq<Fix>, y: Cycle) {
    exists X :: Kin(cur, B, X) && y in Table(p, X)
  }

  ghost predicate AllOfKin(p: Params, cur: Cursor, B: seq<Fix>, rows: Rows) {
    forall y :: y in rows.cycles ==> OfKin(p, cur, B, y)
  }

  /** Cycles have a length within the cap, and no row comes before the first fix. */
  ghost predicate Sane(p: Params, w: int, F: seq<Fix>, rows: Rows)
    requires w > 0 && p.cap.Some? && 0 < |F|
  {
    && (forall y :: y in rows.cycles ==> F[0].ts <= y.start < y.end <= y.start + p.cap.value)
    && forall b :: b in rows.metrics ==> b >= Floor(F[0].ts, w)
  }

  /** The rows a cursor vouches for are those of `F`: the ones the next tick leaves alone, and the
      cycles long over by its horizon. */
  ghost predicate VouchedAt(p: Params, w: int, cur: Cursor, F: seq<Fix>, rows: Rows)
    requires w > 0 && Computed(cur)
  {
    && RightBefore(p, F, rows.cycles, SafeFrom(p, cur))
    && (forall y: Cycle :: Settled(p, y, Horizon(cur)) ==> (y in rows.cycles <==> y in Table(p, F)))
    && forall b :: b < SafeBucket(w, cur) ==> RightAt(p, w, F, rows.metrics, b)
  }

  /** When nothing is marked, so are the newest cycles those of the cursor's track, which slices do
      not reach; and when nothing new is stored either, so are all the rows. */
  ghost predicate RecentAt(p: Params, w: int, cur: Cursor, B: seq<Fix>, F: seq<Fix>, rows: Rows)
    requires w > 0 && 0 < |F|
  {
    cur.dirty.None? ==>
      && (forall y: Cycle :: y.start >= F[|F|-1].ts - Lookback(p) ==> (y in rows.cycles <==> y in Table(p, B)))
      && (F == B ==> Right(p, w, B, rows.cycles, rows.metrics))
  }

  /** A marked fix will not have the next tick rewrite bucket `b`. */
  predicate Unmarked(w: int, cur: Cursor, b: int)
    requires w > 0
  {
    cur.resume.Some? && cur.dirty.Some? ==> b < Floor(cur.dirty.value, w) - w
  }

  /** The rows before `c` and `m` are those of `F`, but for buckets the next tick will rewrite. */
  ghost predicate RightSoFar(p: Params, w: int, cur: Cursor, F: seq<Fix>, rows: Rows, c: int, m: int)
    requires w > 0
  {
    && RightBefore(p, F, rows.cycles, c)
    && forall b :: b < m && Unmarked(w, cur, b) ==> RightAt(p, w, F, rows.metrics, b)
  }

  /** The rows that slices up to `e` have passed are those of the track the last of them saw, unless
      a fix was missed. */
  ghost predicate JobRows(p: Params, w: int, cur: Cursor, F: seq<Fix>, rows: Rows, span: Span, J: seq<Fix>,
                          missed: bool)
    requires w > 0 && 0 < |F|
  {
    var e := span.cyclesFrom;
    && span.metricsFrom == e && span.openThrough.None? && Floor(e, w) == e
    && Floor(F[0].ts, w) < e && e + Lookback(p) <= F[|F|-1].ts
    && (!missed ==>
          GrewFrom(J, F, e + Lookback(p)) && LastsTo(J, e + Lookback(p)) && RightSoFar(p, w, cur, J, rows, e, e))
  }

  /** What holds between any two operations. */
  ghost predicate Inv(p: Params, w: int, s: State, n: Notes)
    requires w > 0 && p.cap.Some?
  {
    match s.cursor
    case None => s == START && n.base == []
    case Some(cur) =>
      && Knows(p, w, cur, n.base, s.positions)
      && Sane(p, w, s.positions, s.rows) && AllOfKin(p, cur, n.base, s.rows)
      && (cur.resume.Some? ==>
            VouchedAt(p, w, cur, n.base, s.rows) && RecentAt(p, w, cur, n.base, s.positions, s.rows))
      && (cur.resume.None? && s.job.None? ==> s.rows == NOTHING)
      && (s.job.Some? ==> JobRows(p, w, cur, s.positions, s.rows, s.job.value, n.written, n.missed))
  }

  // ---- tracks the cursor cannot tell apart ----------------------------------------------------

  lemma {:induction false} KnowsKin(p: Params, w: int, cur: Cursor, B: seq<Fix>, F: seq<Fix>)
    requires w > 0 && Knows(p, w, cur, B, F)
    ensures Kin(cur, B, F)
  {
    hide FullResume, NextMetricsFrom;
    if cur.resume.None? {
      FirstNotBefore(F);
    } else if cur.dirty.None? {
      GrewAfter(B, F);
    } else {
      GrewLate(B, F, cur.dirty.value);
    }
  }

  lemma FirstNotBefore(F: seq<Fix>)
    requires Sorted(F) && 0 < |F|
    ensures forall g :: g in F ==> g.ts >= F[0].ts
  {
  }

  /** They have the same cycles that are long over by the horizon. */
  lemma {:induction false} KinSettled(p: Params, w: int, cur: Cursor, B: seq<Fix>, F: seq<Fix>, X: seq<Fix>, y: Cycle)
    requires w > 0 && p.Ok() && Knows(p, w, cur, B, F) && cur.resume.Some? && Trusted(p, cur, B)
    requires Kin(cur, B, X) && Settled(p, y, Horizon(cur))
    ensures y in Table(p, B) <==> y in Table(p, X)
  {
    hide FullResume, NextMetricsFrom, Table, Firm, Calm, GrewFrom;
    match cur.dirty {
      case None => FirmSettled(p, B, X, y);
      case Some(d) =>
        AgreeIndex(B, X, d);
        CalmByLess(p, B, d, p.minVisit, p.minVisit + p.minExit);
        SettledSame(p, B, X, FirstFrom(B, d), d, y);
    }
  }

  /** A bucket the next tick leaves alone holds only cycles long over by the horizon. */
  lemma {:induction false} BucketSettled(p: Params, w: int, cur: Cursor, B: seq<Fix>, F: seq<Fix>, y: Cycle)
    requires Setting(p, w) && Knows(p, w, cur, B, F) && cur.resume.Some? && Floor(y.end, w) < SafeBucket(w, cur)
    ensures Settled(p, y, Horizon(cur))
  {
    hide FullResume, GrewFrom, Floor;
    var u := if cur.dirty.Some? then cur.dirty.value else cur.through.value - p.minVisit - p.minExit;
    FloorAgain(u, w);
    FloorPrevious(u, w);
    var edge := if cur.dirty.Some? then Floor(u, w) - w else Floor(u, w);
    assert y.end < edge by {
      if y.end >= edge {
        FloorMono(edge, y.end, w);
      }
    }
    FloorIs(u, w);
  }

  // ---- the rows vouched for -------------------------------------------------------------------

  lemma SameRight(p: Params, w: int, F: seq<Fix>, G: seq<Fix>, metrics: map<int, Bucket>, b: int)
    requires w > 0 && SameBucket(p, w, F, G, b)
    ensures RightAt(p, w, F, metrics, b) <==> RightAt(p, w, G, metrics, b)
  {
    hide FullMetrics;
  }

  /** Nothing stored since can have changed them: what the cursor vouches for is right for both. */
  lemma {:induction false} VouchedSame(p: Params, w: int, cur: Cursor, B: seq<Fix>, F: seq<Fix>, rows: Rows)
    requires Setting(p, w) && Knows(p, w, cur, B, F) && cur.resume.Some? && Trusted(p, cur, B)
    ensures VouchedAt(p, w, cur, B, rows) <==> VouchedAt(p, w, cur, F, rows)
  {
    hide *;
    SettingIs(p, w);
    KnownShape(p, w, cur, B, F);
    SafeSame(p, w, cur, B, F);
    KnowsKin(p, w, cur, B, F);
    forall y: Cycle | Settled(p, y, Horizon(cur)) ensures y in Table(p, B) <==> y in Table(p, F) {
      KinSettled(p, w, cur, B, F, F, y);
    }
    forall b | b < SafeBucket(w, cur) ensures RightAt(p, w, B, rows.metrics, b) <==> RightAt(p, w, F, rows.metrics, b) {
      SameRight(p, w, B, F, rows.metrics, b);
    }
    VouchedFor(p, w, cur, B, F, rows);
  }

  lemma VouchedFor(p: Params, w: int, cur: Cursor, B: seq<Fix>, F: seq<Fix>, rows: Rows)
    requires w > 0 && Computed(cur)
    requires SameBefore(p, B, F, SafeFrom(p, cur))
    requires forall y: Cycle :: Settled(p, y, Horizon(cur)) ==> (y in Table(p, B) <==> y in Table(p, F))
    requires forall b :: b < SafeBucket(w, cur) ==>
      (RightAt(p, w, B, rows.metrics, b) <==> RightAt(p, w, F, rows.metrics, b))
    ensures VouchedAt(p, w, cur, B, rows) <==> VouchedAt(p, w, cur, F, rows)
  {
    hide Table, RightAt, SafeFrom, SafeBucket, Horizon, Settled;
  }

  lemma SettingIs(p: Params, w: int)
    requires Setting(p, w)
    ensures p.Ok() && p.cap.Some? && w >= p.minVisit + p.minExit && w > 0 && w <= Lookback(p) && w <= CHUNK_MIN
  {
  }

  /** A cycle of the track vouched for overlaps no kept row. */
  lemma {:induction false} VouchedFree(p: Params, w: int, cur: Cursor, B: seq<Fix>, F: seq<Fix>, rows: Rows, span: Span,
                                       y: Cycle)
    requires w > 0 && p.Ok() && p.cap.Some? && Knows(p, w, cur, B, F) && cur.resume.Some? && Trusted(p, cur, B)
    requires VouchedAt(p, w, cur, F, rows) && AllOfKin(p, cur, B, rows) && y in Table(p, F)
    requires y.start >= span.cyclesFrom
    requires y.start < SafeFrom(p, cur) || Settled(p, y, Horizon(cur))
    ensures Free(SliceKept(p, span, rows.cycles), y)
  {
    KnowsKin(p, w, cur, B, F);
    hide Table, FullResume, SafeFrom, SafeBucket, RightAt, Settled, Trusted, Knows, Kin, Horizon;
    forall k | k in SliceKept(p, span, rows.cycles) ensures y.start >= k.end {
      if y.start < SafeFrom(p, cur) {
        KnownShape(p, w, cur, B, F);
        CyclesApart(p, F, k, y);
      } else {
        assert OfKin(p, cur, B, k);
        var X :| Kin(cur, B, X) && k in Table(p, X);
        KinSettled(p, w, cur, B, F, F, y);
        KinSettled(p, w, cur, B, F, X, y);
        KinSorted(cur, B, X);
        CyclesApart(p, X, k, y);
      }
    }
  }

  lemma KnownShape(p: Params, w: int, cur: Cursor, B: seq<Fix>, F: seq<Fix>)
    requires w > 0 && Knows(p, w, cur, B, F)
    ensures Sorted(F) && 0 < |F| && Sorted(B)
    ensures cur.resume.Some? ==> Computed(cur) && cur.metricsFrom.Some? && cur.through.Some? && 0 < |B|
  {
    hide FullResume;
  }

  lemma KinSorted(cur: Cursor, B: seq<Fix>, X: seq<Fix>)
    requires Kin(cur, B, X)
    ensures Sorted(X)
  {
  }

  /** Whatever a rebuild writes, it leaves what the cursor vouches for right. */
  lemma {:induction false} WroteVouched(p: Params, w: int, cur: Cursor, B: seq<Fix>, F: seq<Fix>, rows: Rows,
                                        next: Rows, span: Span, end: Option<int>)
    requires Setting(p, w) && Knows(p, w, cur, B, F) && cur.resume.Some? && Trusted(p, cur, B)
    requires VouchedAt(p, w, cur, F, rows) && AllOfKin(p, cur, B, rows) && Wrote(p, w, F, rows, next, span, end)
    ensures VouchedAt(p, w, cur, F, next)
  {
    hide *;
    SettingIs(p, w);
    KnownShape(p, w, cur, B, F);
    forall y: Cycle | Within(span.cyclesFrom, end, y.start) && y in Table(p, F)
                      && (y.start < SafeFrom(p, cur) || Settled(p, y, Horizon(cur)))
      ensures Free(SliceKept(p, span, rows.cycles), y)
    {
      FromStart(span.cyclesFrom, end, y.start);
      VouchedFree(p, w, cur, B, F, rows, span, y);
    }
    WroteVouchedCycles(p, w, cur, F, rows, next, span, end);
    forall b | b < SafeBucket(w, cur) ensures RightAt(p, w, F, next.metrics, b) {
      forall y: Cycle | Floor(y.end, w) == b ensures Settled(p, y, Horizon(cur)) {
        BucketSettled(p, w, cur, B, F, y);
      }
      WroteVouchedBucket(p, w, cur, F, rows, next, span, end, b);
    }
    MakeVouched(p, w, cur, F, next);
  }

  lemma FromStart(from: int, end: Option<int>, t: int)
    requires Within(from, end, t)
    ensures t >= from
  {
  }

  lemma MakeVouched(p: Params, w: int, cur: Cursor, F: seq<Fix>, rows: Rows)
    requires w > 0 && Computed(cur)
    requires RightBefore(p, F, rows.cycles, SafeFrom(p, cur))
    requires forall y: Cycle :: Settled(p, y, Horizon(cur)) ==> (y in rows.cycles <==> y in Table(p, F))
    requires forall b :: b < SafeBucket(w, cur) ==> RightAt(p, w, F, rows.metrics, b)
    ensures VouchedAt(p, w, cur, F, rows)
  {
    hide RightBefore, RightAt, SafeFrom, SafeBucket, Horizon, Settled, Table;
  }

  lemma WroteVouchedCycles(p: Params, w: int, cur: Cursor, F: seq<Fix>, rows: Rows, next: Rows, span: Span,
                           end: Option<int>)
    requires w > 0 && p.cap.Some? && Computed(cur)
    requires VouchedAt(p, w, cur, F, rows) && Wrote(p, w, F, rows, next, span, end)
    requires forall y: Cycle :: Within(span.cyclesFrom, end, y.start) && y in Table(p, F)
                                && (y.start < SafeFrom(p, cur) || Settled(p, y, Horizon(cur)))
                                ==> Free(SliceKept(p, span, rows.cycles), y)
    ensures RightBefore(p, F, next.cycles, SafeFrom(p, cur))
    ensures forall y: Cycle :: Settled(p, y, Horizon(cur)) ==> (y in next.cycles <==> y in Table(p, F))
  {
    hide Table, RightAt, SafeFrom, SafeBucket, Horizon, Settled, Within, Free, SliceKept, EndingRight, EndingNew;
    hide SameRow;
  }

  lemma {:induction false} WroteVouchedBucket(p: Params, w: int, cur: Cursor, F: seq<Fix>, rows: Rows, next: Rows,
                                              span: Span, end: Option<int>, b: int)
    requires w > 0 && p.cap.Some? && Computed(cur)
    requires VouchedAt(p, w, cur, F, rows) && Wrote(p, w, F, rows, next, span, end) && b < SafeBucket(w, cur)
    requires forall y: Cycle :: Floor(y.end, w) == b ==> Settled(p, y, Horizon(cur))
    requires forall y: Cycle :: Settled(p, y, Horizon(cur)) ==> (y in next.cycles <==> y in Table(p, F))
    ensures RightAt(p, w, F, next.metrics, b)
  {
    hide Table, RightAt, SafeFrom, SafeBucket, Horizon, Settled, Within, Free, SliceKept, SameRow, Floor;
    if !Within(span.metricsFrom, end, b) {
      SameAt(p, w, F, rows.metrics, next.metrics, b);
    }
  }

  // ---- what every rebuild keeps ---------------------------------------------------------------

  lemma {:induction false} WroteKin(p: Params, w: int, cur: Cursor, B: seq<Fix>, F: seq<Fix>, rows: Rows, next: Rows,
                                    span: Span, end: Option<int>)
    requires w > 0 && p.cap.Some? && Knows(p, w, cur, B, F) && AllOfKin(p, cur, B, rows)
    requires Wrote(p, w, F, rows, next, span, end)
    ensures AllOfKin(p, cur, B, next)
  {
    KnowsKin(p, w, cur, B, F);
    hide Table, RightAt, Within, Free, SliceKept, EndingRight, EndingNew, SameRow, Knows, Kin;
    forall y | y in next.cycles ensures OfKin(p, cur, B, y) {
      if y !in rows.cycles {
        assert y in Table(p, F);
      }
    }
  }

  lemma {:induction false} WroteSane(p: Params, w: int, F: seq<Fix>, rows: Rows, next: Rows, span: Span,
                                     end: Option<int>)
    requires w > 0 && p.cap.Some? && Sorted(F) && 0 < |F| && Sane(p, w, F, rows)
    requires Wrote(p, w, F, rows, next, span, end)
    ensures Sane(p, w, F, next)
  {
    hide Table, RightAt, Within, Free, SliceKept, EndingRight, EndingNew, SameRow, Floor, Starts, Sorted;
    forall y | y in next.cycles && y !in rows.cycles ensures F[0].ts <= y.start < y.end <= y.start + p.cap.value {
      TableSane(p, F, y);
    }
    forall b | b in next.metrics && b !in rows.metrics ensures b >= Floor(F[0].ts, w) {
      StartSane(w, F, b);
    }
  }

  lemma TableSane(p: Params, F: seq<Fix>, y: Cycle)
    requires p.cap.Some? && Sorted(F) && y in Table(p, F)
    ensures 0 < |F| && F[0].ts <= y.start < y.end <= y.start + p.cap.value
  {
    hide CycleAt;
    var s :| 0 <= s < |F| && CycleAt(p, F, s) == Some(y);
    CycleLength(p, F, y);
    OpensAtFix(p, F, F, y);
  }

  lemma StartSane(w: int, F: seq<Fix>, b: int)
    requires w > 0 && Sorted(F) && b in Starts(F, w)
    ensures 0 < |F| && b >= Floor(F[0].ts, w)
  {
    hide Floor;
    var i :| 0 <= i < |F| && b == Floor(F[i].ts, w);
    FloorMono(F[0].ts, F[i].ts, w);
  }

  /** Right rows are all that is asked of rows. */
  lemma {:induction false} RightStands(p: Params, w: int, cur: Cursor, F: seq<Fix>, rows: Rows)
    requires w > 0 && p.cap.Some? && Knows(p, w, cur, F, F) && cur.resume.Some?
    requires Right(p, w, F, rows.cycles, rows.metrics)
    ensures Computed(cur) && 0 < |F|
    ensures Sane(p, w, F, rows) && AllOfKin(p, cur, F, rows)
    ensures VouchedAt(p, w, cur, F, rows) && RecentAt(p, w, cur, F, F, rows)
    ensures forall c, m :: RightSoFar(p, w, cur, F, rows, c, m)
  {
    KnownShape(p, w, cur, F, F);
    KnowsKin(p, w, cur, F, F);
    hide Table, Kin, Knows, Floor, Starts, Sorted, SafeFrom, SafeBucket, Horizon, Settled;
    forall y | y in rows.cycles ensures F[0].ts <= y.start < y.end <= y.start + p.cap.value && OfKin(p, cur, F, y) {
      TableSane(p, F, y);
    }
    forall b | b in rows.metrics ensures b >= Floor(F[0].ts, w) {
      StartSane(w, F, b);
    }
    hide FullMetrics;
  }

  // ---- a slice --------------------------------------------------------------------------------

  /** A slice keeps what is recent: it writes nothing that near the newest fix. */
  lemma {:induction false} SliceRecent(p: Params, w: int, cur: Cursor, B: seq<Fix>, F: seq<Fix>, rows: Rows, next: Rows,
                                       span: Span, end: int)
    requires w > 0 && p.cap.Some? && Sorted(F) && 0 < |F| && end + Lookback(p) <= F[|F|-1].ts
    requires RecentAt(p, w, cur, B, F, rows) && Wrote(p, w, F, rows, next, span, Some(end))
    ensures RecentAt(p, w, cur, B, F, next)
  {
    hide Table, RightAt, Free, SliceKept, EndingRight, EndingNew, SameRow, Floor, Starts, Sorted, Lookback, FullMetrics;
    if cur.dirty.None? && F == B {
      WroteRight(p, w, F, rows, next, span, Some(end));
      StillAllRight(p, w, F, rows, next, span, Some(end));
    }
  }

  /** Rows all right stay so. */
  lemma {:induction false} StillAllRight(p: Params, w: int, F: seq<Fix>, rows: Rows, next: Rows, span: Span,
                                         end: Option<int>)
    requires w > 0 && p.cap.Some? && Right(p, w, F, rows.cycles, rows.metrics) && Wrote(p, w, F, rows, next, span, end)
    requires forall y: Cycle :: Within(span.cyclesFrom, end, y.start) ==> (y in next.cycles <==> y in Table(p, F))
    requires forall b :: Within(span.metricsFrom, end, b) ==> RightAt(p, w, F, next.metrics, b)
    ensures Right(p, w, F, next.cycles, next.metrics)
  {
    hide Table, Within, Free, SliceKept, EndingRight, EndingNew, SameRow, Floor, Starts, FullMetrics, RightAt;
    forall b ensures RightAt(p, w, F, next.metrics, b) {
      if !Within(span.metricsFrom, end, b) {
        RightHere(p, w, F, rows.metrics, b);
        SameAt(p, w, F, rows.metrics, next.metrics, b);
      }
    }
    SameMap(p, w, F, next.metrics);
    assert next.cycles == Table(p, F);
  }

  lemma RightHere(p: Params, w: int, F: seq<Fix>, metrics: map<int, Bucket>, b: int)
    requires w > 0 && metrics == FullMetrics(p, w, F)
    ensures RightAt(p, w, F, metrics, b)
  {
    hide FullMetrics;
  }

  /** After rows that are right so far, a slice's are right as far as its end. */
  lemma {:induction false} SliceSoFar(p: Params, w: int, cur: Cursor, F: seq<Fix>, rows: Rows, next: Rows, span: Span,
                                      end: int)
    requires w > 0 && p.cap.Some? && Sorted(F) && Wrote(p, w, F, rows, next, span, Some(end)) && span.cyclesFrom <= end
    requires RightSoFar(p, w, cur, F, rows, span.cyclesFrom, span.metricsFrom)
    ensures RightSoFar(p, w, cur, F, next, end, end)
  {
    WroteRight(p, w, F, rows, next, span, Some(end));
    hide Table, Free, SliceKept, EndingRight, EndingNew, SameRow, Floor, Starts, Sorted, RightAt, Unmarked;
    forall b | b < end && Unmarked(w, cur, b) ensures RightAt(p, w, F, next.metrics, b) {
      if b < span.metricsFrom {
        SameAt(p, w, F, rows.metrics, next.metrics, b);
      }
    }
  }

  /** What a rebuild from `span` finds before it, unless a fix was missed. */
  ghost predicate Before(p: Params, w: int, cur: Cursor, F: seq<Fix>, rows: Rows, span: Span, missed: bool)
    requires w > 0
  {
    !missed ==> RightSoFar(p, w, cur, F, rows, span.cyclesFrom, span.metricsFrom)
  }

  lemma {:induction false} SliceJob(p: Params, w: int, cur: Cursor, F: seq<Fix>, rows: Rows, next: Rows, span: Span,
                                    end: int, missed: bool)
    requires Setting(p, w) && Sorted(F) && 0 < |F| && Wrote(p, w, F, rows, next, span, Some(end))
    requires span.cyclesFrom <= end && Floor(end, w) == end && end + Lookback(p) <= F[|F|-1].ts
    requires Floor(F[0].ts, w) < end && Before(p, w, cur, F, rows, span, missed)
    ensures JobRows(p, w, cur, F, next, Span(end, EntryKnownAt(F, end), end, None), F, missed)
  {
    hide Wrote, RightSoFar, Floor, Lookback, EntryKnownAt;
    if !missed {
      SliceSoFar(p, w, cur, F, rows, next, span, end);
    }
    GrewSelf(F, end + Lookback(p));
  }

  lemma GrewSelf(F: seq<Fix>, t: int)
    requires Sorted(F)
    ensures GrewFrom(F, F, t) && Agree(F, F, t)
  {
  }

  // ---- where a rebuild begins -----------------------------------------------------------------

  lemma {:induction false} FirstRight(p: Params, w: int, F: seq<Fix>, rows: Rows)
    requires w > 0 && p.cap.Some? && Sorted(F) && 0 < |F| && Sane(p, w, F, rows)
    ensures RightBefore(p, F, rows.cycles, F[0].ts)
    ensures forall b :: b < Floor(F[0].ts, w) ==> RightAt(p, w, F, rows.metrics, b)
  {
    hide Table, Floor, Starts, Sorted;
    forall y | y in Table(p, F) ensures y.start >= F[0].ts {
      TableSane(p, F, y);
    }
    forall b | b < Floor(F[0].ts, w) ensures RightAt(p, w, F, rows.metrics, b) {
      if b in FullMetrics(p, w, F) {
        StartSane(w, F, b);
      }
    }
  }

  /** A rebuild that starts no later than the cursor finds right rows before it, if it passes by
      none that a marked fix can have changed. */
  lemma {:induction false} BeginsAfterRight(p: Params, w: int, cur: Cursor, B: seq<Fix>, F: seq<Fix>, rows: Rows,
                                            span: Span)
    requires Setting(p, w) && Knows(p, w, cur, B, F) && Sane(p, w, F, rows) && Trusted(p, cur, B)
    requires cur.resume.Some? ==>
      && VouchedAt(p, w, cur, B, rows)
      && (span.metricsFrom <= cur.metricsFrom.value || span.metricsFrom <= Floor(F[0].ts, w))
    requires cur.resume.None? ==> span.metricsFrom <= Floor(F[0].ts, w)
    requires span.cyclesFrom <= Vouched(p, cur, F)
    ensures RightSoFar(p, w, cur, F, rows, span.cyclesFrom, span.metricsFrom)
  {
    KnownShape(p, w, cur, B, F);
    FirstRight(p, w, F, rows);
    if cur.resume.Some? {
      VouchedSame(p, w, cur, B, F, rows);
    }
    hide Table, Floor, Starts, Sorted, Knows, RightAt, SafeFrom, Horizon, Settled, FullMetrics, Trusted;
  }

  /** So does one that continues, if no fix was missed. */
  lemma {:induction false} ContinuesRight(p: Params, w: int, cur: Cursor, F: seq<Fix>, rows: Rows, span: Span,
                                          J: seq<Fix>)
    requires Setting(p, w) && Sorted(F) && 0 < |F| && JobRows(p, w, cur, F, rows, span, J, false)
    requires CalmPast(p, J, span.cyclesFrom)
    ensures RightSoFar(p, w, cur, F, rows, span.cyclesFrom, span.metricsFrom)
  {
    hide *;
    var e, t := span.cyclesFrom, span.cyclesFrom + Lookback(p);
    JobParts(p, w, cur, F, rows, span, J);
    GrewLate(J, F, t);
    AgreeIndex(J, F, t);
    CalmPasses(p, J, F, e);
    FarSame(p, J, F, FirstFrom(J, t), t, e);
    forall b | b < e ensures RightAt(p, w, J, rows.metrics, b) <==> RightAt(p, w, F, rows.metrics, b) {
      BeforeLookback(p, w, e);
      LateBuckets(p, w, J, F, t, b);
      SameRight(p, w, J, F, rows.metrics, b);
    }
    StillSoFar(p, w, cur, J, F, rows, e);
  }

  lemma JobParts(p: Params, w: int, cur: Cursor, F: seq<Fix>, rows: Rows, span: Span, J: seq<Fix>)
    requires Setting(p, w) && 0 < |F| && JobRows(p, w, cur, F, rows, span, J, false)
    ensures p.Ok() && p.cap.Some? && w >= p.minVisit + p.minExit && w > 0
    ensures var e := span.cyclesFrom;
            && span.metricsFrom == e && Floor(e, w) == e && GrewFrom(J, F, e + Lookback(p))
            && LastsTo(J, e + Lookback(p)) && RightSoFar(p, w, cur, J, rows, e, e)
  {
    hide Floor, RightSoFar, GrewFrom, LastsTo, Lookback;
  }

  lemma CalmPasses(p: Params, J: seq<Fix>, F: seq<Fix>, e: int)
    requires Agree(J, F, e + Lookback(p)) && CalmPast(p, J, e) && p.cap.Some?
    requires var n, t := FirstFrom(J, e + Lookback(p)), e + Lookback(p);
             n < |J| && n < |F| && Share(J, F, n) && J[n].ts >= t && F[n].ts >= t
    ensures var n, t := FirstFrom(J, e + Lookback(p)), e + Lookback(p);
            Parts(J, F, n, t) && Calm(p, J, n, t, p.minVisit + p.minExit) && e + Reach(p) <= t
    ensures CalmBy(p, J, e + Lookback(p), p.minVisit + p.minExit)
  {
    hide FirstFrom, Calm, Share;
  }

  /** The lookback past a boundary is in a later bucket. */
  lemma BeforeLookback(p: Params, w: int, e: int)
    requires Setting(p, w) && Floor(e, w) == e
    ensures Floor(e + Lookback(p), w) >= e + w
  {
    FloorNext(e, w);
    FloorMono(e + w, e + Lookback(p), w);
    hide Floor, Lookback;
  }

  lemma StillSoFar(p: Params, w: int, cur: Cursor, J: seq<Fix>, F: seq<Fix>, rows: Rows, e: int)
    requires w > 0 && SameBefore(p, J, F, e) && RightSoFar(p, w, cur, J, rows, e, e)
    requires forall b :: b < e ==> (RightAt(p, w, J, rows.metrics, b) <==> RightAt(p, w, F, rows.metrics, b))
    ensures RightSoFar(p, w, cur, F, rows, e, e)
  {
    hide Table, RightAt, Unmarked;
  }

  // ---- the last rebuild -----------------------------------------------------------------------

  /** The cursor after it: it has read everything, and a mark stays. */
  ghost function Moved(p: Params, w: int, cur: Cursor, F: seq<Fix>): Cursor
    requires w > 0 && 0 < |F|
  {
    var last := F[|F|-1].ts;
    Cursor(Some(FullResume(p, F)), Some(NextMetricsFrom(p, w, last)), Some(last), cur.dirty)
  }

  lemma MovedKnows(p: Params, w: int, cur: Cursor, B: seq<Fix>, F: seq<Fix>)
    requires w > 0 && Knows(p, w, cur, B, F)
    ensures 0 < |F| && Knows(p, w, Moved(p, w, cur, F), F, F)
  {
    hide FullResume, NextMetricsFrom;
    if cur.resume.Some? && cur.dirty.Some? {
      GrewLate(B, F, cur.dirty.value);
    }
  }

  /** After right rows, it leaves them all right but for buckets the next tick rewrites. */
  lemma {:induction false} EndRight(p: Params, w: int, cur: Cursor, F: seq<Fix>, rows: Rows, next: Rows, span: Span)
    requires w > 0 && p.cap.Some? && Sorted(F) && Wrote(p, w, F, rows, next, span, None)
    requires RightSoFar(p, w, cur, F, rows, span.cyclesFrom, span.metricsFrom)
    ensures next.cycles == Table(p, F)
    ensures forall b :: Unmarked(w, cur, b) ==> RightAt(p, w, F, next.metrics, b)
  {
    WroteRight(p, w, F, rows, next, span, None);
    hide Table, Free, SliceKept, EndingRight, EndingNew, SameRow, Floor, Starts, Sorted, RightAt, Unmarked;
    forall b | Unmarked(w, cur, b) ensures RightAt(p, w, F, next.metrics, b) {
      if b < span.metricsFrom {
        SameAt(p, w, F, rows.metrics, next.metrics, b);
      }
    }
    assert forall y: Cycle :: y in next.cycles <==> y in Table(p, F);
  }

  lemma {:induction false} EndRightStands(p: Params, w: int, cur: Cursor, B: seq<Fix>, F: seq<Fix>, next: Rows)
    requires w > 0 && p.cap.Some? && Knows(p, w, cur, B, F)
    requires next.cycles == Table(p, F) && forall b :: Unmarked(w, cur, b) ==> RightAt(p, w, F, next.metrics, b)
    ensures 0 < |F|
    ensures var after := Moved(p, w, cur, F);
            VouchedAt(p, w, after, F, next) && RecentAt(p, w, after, F, F, next) && AllOfKin(p, after, F, next)
  {
    KnownShape(p, w, cur, B, F);
    MovedKnows(p, w, cur, B, F);
    var after := Moved(p, w, cur, F);
    KnowsKin(p, w, after, F, F);
    hide Table, FullResume, NextMetricsFrom, Knows, Kin, Floor, Sorted, RightAt, Settled, SafeFrom;
    if cur.dirty.None? {
      SameMap(p, w, F, next.metrics);
    }
    forall y | y in next.cycles ensures OfKin(p, after, F, y) {
      assert Kin(after, F, F) && y in Table(p, F);
    }
  }

  /** Rows right up to a mark from which the next tick goes back are all that need be. */
  lemma {:induction false} MarkedVouched(p: Params, w: int, cur: Cursor, F: seq<Fix>, rows: Rows, d: int)
    requires Setting(p, w) && Computed(cur) && cur.dirty == Some(d) && d < cur.resume.value.ts + p.minVisit
    requires Sorted(F) && 0 < |F| && Sane(p, w, F, rows)
    requires forall y: Cycle :: Settled(p, y, d) ==> (y in rows.cycles <==> y in Table(p, F))
    requires forall b :: b < Floor(d, w) - w ==> RightAt(p, w, F, rows.metrics, b)
    ensures VouchedAt(p, w, cur, F, rows)
  {
    hide Table, Sorted, RightAt, Floor;
    forall y: Cycle | y.start < d - Lookback(p) ensures y in rows.cycles <==> y in Table(p, F) {
      if y in Table(p, F) {
        TableSane(p, F, y);
      }
      assert y in rows.cycles || y in Table(p, F) ==> Settled(p, y, d);
    }
  }

  /** A mark lies behind the buckets the cursor rewrites anyway. */
  lemma MarkBehind(p: Params, w: int, cur: Cursor, B: seq<Fix>, F: seq<Fix>)
    requires Setting(p, w) && Knows(p, w, cur, B, F) && cur.resume.Some? && cur.dirty.Some?
    ensures SafeBucket(w, cur) == Floor(cur.dirty.value, w) - w
  {
    hide FullResume, GrewFrom, Floor;
    var last := B[|B|-1].ts;
    var u := last - p.minVisit - p.minExit;
    FloorMono(cur.dirty.value, last, w);
    FloorNext(Floor(u, w), w) by {
      FloorAgain(u, w);
    }
    assert Floor(last, w) <= Floor(u, w) + w by {
      BucketSpan(u, w);
      if Floor(last, w) > Floor(u, w) + w {
        FloorAgain(last, w);
        FloorBefore(Floor(u, w) + w, Floor(last, w), w);
        FloorIs(last, w);
      }
    }
  }

  /** Before the first fix there is nothing to be wrong. */
  lemma {:induction false} FirstSettled(p: Params, w: int, F: seq<Fix>, rows: Rows, y: Cycle)
    requires Setting(p, w) && Sorted(F) && 0 < |F| && Sane(p, w, F, rows) && Settled(p, y, F[0].ts)
    ensures y !in rows.cycles && y !in Table(p, F)
  {
    hide Table, Sorted, Floor;
    if y in Table(p, F) {
      TableSane(p, F, y);
    }
  }

  lemma {:induction false} EndMissedVouched(p: Params, w: int, cur: Cursor, B: seq<Fix>, F: seq<Fix>, rows: Rows,
                                            next: Rows, span: Span)
    requires Setting(p, w) && Knows(p, w, cur, B, F) && Trusted(p, cur, B) && cur.dirty.Some?
    requires Wrote(p, w, F, rows, next, span, None) && Sane(p, w, F, next)
    requires AllOfKin(p, cur, B, rows) && (cur.resume.Some? ==> VouchedAt(p, w, cur, B, rows))
    requires 0 < |F| && cur.dirty.value < FullResume(p, F).ts + p.minVisit
    ensures VouchedAt(p, w, Moved(p, w, cur, F), F, next)
  {
    var d := cur.dirty.value;
    KnownShape(p, w, cur, B, F);
    if cur.resume.Some? {
      VouchedSame(p, w, cur, B, F, rows);
      WroteVouched(p, w, cur, B, F, rows, next, span, None);
      MarkBehind(p, w, cur, B, F);
    } else {
      FirstRight(p, w, F, next);
      FirstSettledAll(p, w, F, next);
    }
    hide Table, Sorted, RightAt, Floor, FullResume, NextMetricsFrom, SafeFrom, Trusted, Wrote, AllOfKin, GrewFrom, Sane;
    MarkedVouched(p, w, Moved(p, w, cur, F), F, next, d);
  }

  lemma FirstSettledAll(p: Params, w: int, F: seq<Fix>, rows: Rows)
    requires Setting(p, w) && Sorted(F) && 0 < |F| && Sane(p, w, F, rows)
    ensures forall y: Cycle :: Settled(p, y, F[0].ts) ==> (y in rows.cycles <==> y in Table(p, F))
  {
    hide *;
    forall y: Cycle | Settled(p, y, F[0].ts) ensures y in rows.cycles <==> y in Table(p, F) {
      FirstSettled(p, w, F, rows, y);
    }
  }

  /** Rows of tracks the old cursor could not tell from its own are such rows of the new one's. */
  lemma {:induction false} EndMissedKin(p: Params, w: int, cur: Cursor, B: seq<Fix>, F: seq<Fix>, rows: Rows,
                                        next: Rows, span: Span)
    requires w > 0 && p.cap.Some? && Knows(p, w, cur, B, F) && cur.dirty.Some?
    requires Wrote(p, w, F, rows, next, span, None) && AllOfKin(p, cur, B, rows)
    ensures 0 < |F| && AllOfKin(p, Moved(p, w, cur, F), F, next)
  {
    KnownShape(p, w, cur, B, F);
    WroteKin(p, w, cur, B, F, rows, next, span, None);
    KnowsKin(p, w, cur, B, F);
    hide Table, Knows, FullResume, NextMetricsFrom, Wrote;
    var after := Moved(p, w, cur, F);
    forall y | y in next.cycles ensures OfKin(p, after, F, y) {
      assert OfKin(p, cur, B, y);
      var X :| Kin(cur, B, X) && y in Table(p, X);
      assert Kin(after, F, X);
    }
  }

  /** What the last rebuild leaves stands, when it reaches back to the restart point and the fixes it
      missed are marked so that the next tick goes back to them. */
  lemma {:induction false} FinishStands(p: Params, w: int, cur: Cursor, B: seq<Fix>, F: seq<Fix>, rows: Rows,
                                        next: Rows, span: Span, missed: bool)
    requires Setting(p, w) && Knows(p, w, cur, B, F) && Trusted(p, cur, B) && 0 < |F|
    requires Sane(p, w, F, rows) && AllOfKin(p, cur, B, rows) && (cur.resume.Some? ==> VouchedAt(p, w, cur, B, rows))
    requires Wrote(p, w, F, rows, next, span, None) && Before(p, w, cur, F, rows, span, missed)
    requires missed ==> cur.dirty.Some? && cur.dirty.value < FullResume(p, F).ts + p.minVisit
    ensures Inv(p, w, State(F, Some(Moved(p, w, cur, F)), next, None), Notes(F, F, false))
  {
    KnownShape(p, w, cur, B, F);
    hide *;
    SettingIs(p, w);
    MovedKnows(p, w, cur, B, F);
    WroteSane(p, w, F, rows, next, span, None);
    if missed {
      EndMissedVouched(p, w, cur, B, F, rows, next, span);
      EndMissedKin(p, w, cur, B, F, rows, next, span);
      MarkedNotRecent(p, w, cur, F, next);
    } else {
      BeforeIs(p, w, cur, F, rows, span);
      EndRight(p, w, cur, F, rows, next, span);
      EndRightStands(p, w, cur, B, F, next);
    }
    FinishedInv(p, w, cur, F, next);
  }

  lemma BeforeIs(p: Params, w: int, cur: Cursor, F: seq<Fix>, rows: Rows, span: Span)
    requires w > 0 && Before(p, w, cur, F, rows, span, false)
    ensures RightSoFar(p, w, cur, F, rows, span.cyclesFrom, span.metricsFrom)
  {
  }

  lemma MarkedNotRecent(p: Params, w: int, cur: Cursor, F: seq<Fix>, rows: Rows)
    requires w > 0 && 0 < |F| && cur.dirty.Some?
    ensures RecentAt(p, w, Moved(p, w, cur, F), F, F, rows)
  {
    hide FullResume, NextMetricsFrom;
  }

  lemma FinishedInv(p: Params, w: int, cur: Cursor, F: seq<Fix>, rows: Rows)
    requires w > 0 && p.cap.Some? && 0 < |F| && Knows(p, w, Moved(p, w, cur, F), F, F) && Sane(p, w, F, rows)
    requires VouchedAt(p, w, Moved(p, w, cur, F), F, rows) && RecentAt(p, w, Moved(p, w, cur, F), F, F, rows)
    requires AllOfKin(p, Moved(p, w, cur, F), F, rows)
    ensures Inv(p, w, State(F, Some(Moved(p, w, cur, F)), rows, None), Notes(F, F, false))
  {
    hide Knows, Sane, VouchedAt, RecentAt, AllOfKin, FullResume, NextMetricsFrom;
  }
}

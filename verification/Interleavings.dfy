/** Every operation keeps what holds of one asset's rows; so after any interleaving of stored fixes,
    ticks and slices of on-demand rebuilds, once nothing is left unread, every row is the one a
    rebuild of the whole history would write. */
module Interleavings {
  import opened Wrappers
  import opened Track
  import opened Cycles
  import opened Analysis
  import opened Locality
  import opened Restart
  import opened Finality
  import opened Metrics
  import opened Recompute
  import opened Buckets
  import opened Refresh
  import opened Stored
  import opened Slices
  import opened Runs
  import opened Standing

  // ---- storing a fix --------------------------------------------------------------------------

  /** The cursor before and after a mark, or after a fix that needs none. */
  ghost predicate Marks(cur: Cursor, after: Cursor) {
    && after == cur.(dirty := after.dirty)
    && (cur.dirty.Some? ==> after.dirty.Some? && after.dirty.value <= cur.dirty.value)
    && (after.dirty.Some? && cur.dirty.None? && cur.through.Some? ==> after.dirty.value < cur.through.value)
  }

  lemma MarkedMarks(cur: Cursor, ts: int)
    ensures Marks(cur, Marked(Some(cur), ts))
  {
  }

  /** A mark only lowers what the cursor vouches for. */
  lemma {:induction false} MarkVouched(p: Params, w: int, cur: Cursor, after: Cursor, B: seq<Fix>, rows: Rows)
    requires Setting(p, w) && Computed(cur) && Marks(cur, after) && VouchedAt(p, w, cur, B, rows)
    ensures VouchedAt(p, w, after, B, rows)
  {
    hide Table, Floor, RightAt;
    if after.dirty.Some? && cur.dirty.Some? {
      FloorMono(after.dirty.value, cur.dirty.value, w);
    }
  }

  lemma {:induction false} MarkKin(p: Params, w: int, cur: Cursor, after: Cursor, B: seq<Fix>, F: seq<Fix>, rows: Rows)
    requires w > 0 && Knows(p, w, cur, B, F) && Marks(cur, after) && AllOfKin(p, cur, B, rows)
    ensures AllOfKin(p, after, B, rows)
  {
    hide Table, FullResume, NextMetricsFrom, GrewFrom;
    forall y | y in rows.cycles ensures OfKin(p, after, B, y) {
      assert OfKin(p, cur, B, y);
      var X :| Kin(cur, B, X) && y in Table(p, X);
      MarkedKin(p, w, cur, after, B, F, X);
      assert Kin(after, B, X) && y in Table(p, X);
    }
  }

  lemma {:induction false} MarkedKin(p: Params, w: int, cur: Cursor, after: Cursor, B: seq<Fix>, F: seq<Fix>,
                                     X: seq<Fix>)
    requires w > 0 && Knows(p, w, cur, B, F) && Marks(cur, after) && Kin(cur, B, X)
    ensures Kin(after, B, X)
  {
    hide FullResume, NextMetricsFrom, GrewFrom;
    if cur.dirty.None? && after.dirty.Some? {
      ExtendsAgree(B, X, after.dirty.value);
    }
  }

  lemma {:induction false} ExtendsAgree(B: seq<Fix>, X: seq<Fix>, d: int)
    requires Sorted(B) && Extends(B, X) && LastsTo(B, d)
    ensures Agree(B, X, d) && LastsTo(X, d)
  {
    var n := |B|;
    ShareAt(B, X, n, n - 1);
    forall g: Fix | g.ts < d ensures g in B <==> g in X {
      if g in B {
        var i :| 0 <= i < n && B[i] == g;
        ShareAt(B, X, n, i);
      }
      if g in X {
        var i :| 0 <= i < |X| && X[i] == g;
        assert i < n;
        ShareAt(B, X, n, i);
      }
    }
  }

  lemma {:induction false} StoredSane(p: Params, w: int, F: seq<Fix>, G: seq<Fix>, rows: Rows)
    requires w > 0 && p.cap.Some? && 0 < |F| && 0 < |G| && G[0].ts <= F[0].ts && Sane(p, w, F, rows)
    ensures Sane(p, w, G, rows)
  {
    hide Floor;
    FloorMono(G[0].ts, F[0].ts, w);
  }

  /** A new fix joins at one place: the first can only be earlier, the last only later. */
  lemma {:induction false} StoredEnds(F: seq<Fix>, f: Fix)
    requires Sorted(F) && 0 < |F| && IsNew(F, f)
    ensures var G := Inserted(F, f);
            && Sorted(G) && 0 < |G| && G[0].ts <= F[0].ts && F[|F|-1].ts <= G[|G|-1].ts && G != F && f in G
            && GrewFrom(F, G, f.ts)
  {
    InsertedSorted(F, f);
    var G := Inserted(F, f);
    hide Inserted, FirstFrom;
    assert F[0] in G && F[|F|-1] in G;
    FirstOf(G, F[0]);
    LastOf(G, F[|F|-1]);
  }

  lemma LastOf(F: seq<Fix>, g: Fix)
    requires Sorted(F) && g in F
    ensures g.ts <= F[|F|-1].ts
  {
    var i :| 0 <= i < |F| && F[i] == g;
  }

  lemma {:induction false} StoredJob(p: Params, w: int, cur: Cursor, after: Cursor, F: seq<Fix>, f: Fix, rows: Rows,
                                     span: Span, J: seq<Fix>, missed: bool)
    requires w > 0 && Sorted(F) && 0 < |F| && IsNew(F, f) && Marks(cur, after)
    requires JobRows(p, w, cur, F, rows, span, J, missed)
    ensures 0 < |Inserted(F, f)|
    ensures JobRows(p, w, after, Inserted(F, f), rows, span, J, missed || !Ahead(p, span, f))
  {
    StoredEnds(F, f);
    var G, e := Inserted(F, f), span.cyclesFrom;
    hide Inserted, Floor, RightAt, Table, RightBefore, Sorted;
    FloorMono(G[0].ts, F[0].ts, w);
    if !missed && Ahead(p, span, f) {
      GrewOn(J, F, G, e + Lookback(p), f.ts);
      forall b | Unmarked(w, after, b) ensures Unmarked(w, cur, b) {
        MarkedBelow(w, cur, after, b);
      }
    }
  }

  lemma GrewOn(J: seq<Fix>, F: seq<Fix>, G: seq<Fix>, t: int, u: int)
    requires GrewFrom(J, F, t) && GrewFrom(F, G, u) && u >= t
    ensures GrewFrom(J, G, t)
  {
  }

  lemma MarkedBelow(w: int, cur: Cursor, after: Cursor, b: int)
    requires w > 0 && Marks(cur, after) && Unmarked(w, after, b)
    ensures Unmarked(w, cur, b)
  {
    hide Floor;
    if cur.dirty.Some? {
      FloorMono(after.dirty.value, cur.dirty.value, w);
    }
  }

  lemma {:induction false} StoredRecent(p: Params, w: int, cur: Cursor, after: Cursor, B: seq<Fix>, F: seq<Fix>, f: Fix,
                                        rows: Rows)
    requires w > 0 && Knows(p, w, cur, B, F) && IsNew(F, f) && Marks(cur, after) && 0 < |F|
    requires RecentAt(p, w, cur, B, F, rows)
    ensures 0 < |Inserted(F, f)| && RecentAt(p, w, after, B, Inserted(F, f), rows)
  {
    KnownShape(p, w, cur, B, F);
    StoredEnds(F, f);
    hide Inserted, Table, FullResume, NextMetricsFrom, Sorted, Right;
    if after.dirty.None? {
      NotYetIn(p, w, cur, B, F, f);
    }
  }

  lemma NotYetIn(p: Params, w: int, cur: Cursor, B: seq<Fix>, F: seq<Fix>, f: Fix)
    requires w > 0 && Knows(p, w, cur, B, F) && IsNew(F, f)
    ensures f !in B
  {
    KnownShape(p, w, cur, B, F);
    InsertedSorted(F, f);
    hide FullResume, Inserted, IsNew, NextMetricsFrom;
    assert f !in F;
  }

  lemma {:induction false} StoreKeeps(p: Params, w: int, s: State, n: Notes, f: Fix)
    requires Setting(p, w) && Inv(p, w, s, n)
    ensures Inv(p, w, AfterStore(s, f), NextNotes(p, w, s, n, Store(f)))
  {
    if s.cursor.None? {
      FirstStored(p, w, n, f);
    } else if IsNew(s.positions, f) {
      NewStored(p, w, s, n, f);
    }
  }

  lemma FirstStored(p: Params, w: int, n: Notes, f: Fix)
    requires Setting(p, w) && n.base == []
    ensures Inv(p, w, AfterStore(START, f), NextNotes(p, w, START, n, Store(f)))
  {
    FirstKnows(p, w, f);
    hide Knows, Floor;
  }

  lemma {:induction false} NewStored(p: Params, w: int, s: State, n: Notes, f: Fix)
    requires Setting(p, w) && Inv(p, w, s, n) && s.cursor.Some? && IsNew(s.positions, f)
    ensures Inv(p, w, AfterStore(s, f), NextNotes(p, w, s, n, Store(f)))
  {
    var cur, F, B := s.cursor.value, s.positions, n.base;
    var after := Marked(Some(cur), f.ts);
    hide *;
    InvParts(p, w, s, n);
    KnownShape(p, w, cur, B, F);
    SettingIs(p, w);
    MarkKnows(p, w, cur, B, F, f);
    MarkedMarks(cur, f.ts);
    MarkKin(p, w, cur, after, B, F, s.rows);
    StoredEnds(F, f);
    StoredSane(p, w, F, Inserted(F, f), s.rows);
    if cur.resume.Some? {
      MarkVouched(p, w, cur, after, B, s.rows);
      StoredRecent(p, w, cur, after, B, F, f, s.rows);
    }
    if s.job.Some? {
      StoredJob(p, w, cur, after, F, f, s.rows, s.job.value, n.written, n.missed);
    }
    StoredInv(p, w, s, n, f);
  }

  /** The invariant, taken apart. */
  lemma InvParts(p: Params, w: int, s: State, n: Notes)
    requires w > 0 && p.cap.Some? && Inv(p, w, s, n) && s.cursor.Some?
    ensures var cur := s.cursor.value;
            && Knows(p, w, cur, n.base, s.positions) && 0 < |s.positions|
            && Sane(p, w, s.positions, s.rows) && AllOfKin(p, cur, n.base, s.rows)
            && (cur.resume.Some? ==> Computed(cur) && VouchedAt(p, w, cur, n.base, s.rows)
                                     && RecentAt(p, w, cur, n.base, s.positions, s.rows))
            && (cur.resume.None? && s.job.None? ==> s.rows == NOTHING)
            && (s.job.Some? ==> JobRows(p, w, cur, s.positions, s.rows, s.job.value, n.written, n.missed))
  {
    hide Sane, AllOfKin, VouchedAt, RecentAt, JobRows, FullResume, GrewFrom, NextMetricsFrom;
  }

  /** ... and put together for the state after a fix is stored. */
  lemma StoredInv(p: Params, w: int, s: State, n: Notes, f: Fix)
    requires w > 0 && p.cap.Some? && s.cursor.Some? && IsNew(s.positions, f) && 0 < |Inserted(s.positions, f)|
    requires var after, G := Marked(s.cursor, f.ts), Inserted(s.positions, f);
             && Knows(p, w, after, n.base, G) && Sane(p, w, G, s.rows) && AllOfKin(p, after, n.base, s.rows)
             && (after.resume.Some? ==> Computed(after) && VouchedAt(p, w, after, n.base, s.rows)
                                        && RecentAt(p, w, after, n.base, G, s.rows))
             && (after.resume.None? && s.job.None? ==> s.rows == NOTHING)
             && (s.job.Some? ==> JobRows(p, w, after, G, s.rows, s.job.value, n.written,
                                         n.missed || !Ahead(p, s.job.value, f)))
    ensures Inv(p, w, AfterStore(s, f), NextNotes(p, w, s, n, Store(f)))
  {
    hide Knows, Sane, AllOfKin, VouchedAt, RecentAt, JobRows, Inserted, IsNew, Marked, Ahead;
  }

  // ---- a tick ---------------------------------------------------------------------------------

  /** The rows before a tick's window are right. */
  lemma {:induction false} TickBefore(p: Params, w: int, s: State, n: Notes, span: Span)
    requires Setting(p, w) && Inv(p, w, s, n) && s.cursor.Some? && FirstWhole(w, s, n)
    requires Reliable(p, s, n)
    requires ChooseWindow(p, w, s.cursor.value, s.positions, s.rows.metrics.Keys) == Some(span)
    ensures RowsBefore(p, w, s.positions, s.rows.cycles, s.rows.metrics, span.cyclesFrom, span.metricsFrom)
  {
    var cur, F, B := s.cursor.value, s.positions, n.base;
    InvParts(p, w, s, n);
    KnownShape(p, w, cur, B, F);
    FirstRight(p, w, F, s.rows);
    if cur.resume.Some? {
      WindowGood(p, w, cur, B, F, s.rows.metrics.Keys);
      VouchedSame(p, w, cur, B, F, s.rows);
      hide *;
      SafeRows(p, w, cur, F, s.rows, span);
    } else {
      FirstWindow(p, w, cur, F, s.rows.metrics.Keys);
      hide *;
      FirstBefore(p, w, s, n, span);
    }
  }

  lemma SafeRows(p: Params, w: int, cur: Cursor, F: seq<Fix>, rows: Rows, span: Span)
    requires w > 0 && Computed(cur) && 0 < |F| && VouchedAt(p, w, cur, F, rows) && StartsSafe(p, w, cur, F, span)
    requires RightBefore(p, F, rows.cycles, F[0].ts)
    ensures RowsBefore(p, w, F, rows.cycles, rows.metrics, span.cyclesFrom, span.metricsFrom)
  {
    hide Table, RightAt, SafeFrom, SafeBucket, Horizon, Settled, Floor, GoodWindow;
  }

  /** The first tick of all: what slices have made of the first bucket is right, if it is left to them. */
  lemma {:induction false} FirstBefore(p: Params, w: int, s: State, n: Notes, span: Span)
    requires Setting(p, w) && Inv(p, w, s, n) && s.cursor.Some? && FirstWhole(w, s, n) && Reliable(p, s, n)
    requires s.cursor.value.resume.None? && 0 < |s.positions| && Sorted(s.positions)
    requires var F := s.positions;
      span == Span(F[0].ts, true, MetricsStart(w, F[0].ts, true, s.rows.metrics.Keys), None)
    requires RightBefore(p, s.positions, s.rows.cycles, s.positions[0].ts)
    requires forall b :: b < Floor(s.positions[0].ts, w) ==> RightAt(p, w, s.positions, s.rows.metrics, b)
    ensures RowsBefore(p, w, s.positions, s.rows.cycles, s.rows.metrics, span.cyclesFrom, span.metricsFrom)
  {
    var cur, F := s.cursor.value, s.positions;
    var b0 := Floor(F[0].ts, w);
    InvParts(p, w, s, n);
    hide Sorted, Knows, Sane, AllOfKin, JobRows, Inv, CalmPast, FullResume;
    if span.metricsFrom > b0 {
      assert !n.missed && b0 in s.rows.metrics;
      assert s.rows != NOTHING;
      ContinuesRight(p, w, cur, F, s.rows, s.job.value, n.written);
      JobPast(p, w, cur, F, s.rows, s.job.value, n.written);
    }
    hide Table, RightAt, Floor;
  }

  /** Slices have passed the first bucket. */
  lemma JobPast(p: Params, w: int, cur: Cursor, F: seq<Fix>, rows: Rows, span: Span, J: seq<Fix>)
    requires w > 0 && 0 < |F| && JobRows(p, w, cur, F, rows, span, J, false)
    ensures Floor(F[0].ts, w) + w <= span.metricsFrom == span.cyclesFrom
  {
    hide Floor, RightSoFar, GrewFrom;
    FloorAgain(F[0].ts, w);
    FloorBefore(Floor(F[0].ts, w), span.cyclesFrom, w);
  }

  /** When the open visit simply continued, the cycles are right as they are. */
  lemma {:induction false} OpenRight(p: Params, w: int, s: State, n: Notes, span: Span)
    requires Setting(p, w) && Inv(p, w, s, n) && s.cursor.Some? && 0 < |s.positions| && Sorted(s.positions)
    requires ChooseWindow(p, w, s.cursor.value, s.positions, s.rows.metrics.Keys) == Some(span)
    requires StillInOpenVisit(p, ReadFrom(s.positions, span), span) && Floor(span.metricsFrom, w) == span.metricsFrom
    requires RowsBefore(p, w, s.positions, s.rows.cycles, s.rows.metrics, span.cyclesFrom, span.metricsFrom)
    ensures FullResume(p, s.positions) == Resume(span.cyclesFrom, true, true)
    ensures Right(p, w, s.positions, Rebuilt(p, w, s, span).0.cycles, Rebuilt(p, w, s, span).0.metrics)
  {
    var cur, F, B, c, m := s.cursor.value, s.positions, n.base, span.cyclesFrom, span.metricsFrom;
    InvParts(p, w, s, n);
    KnownShape(p, w, cur, B, F);
    OpenSpan(p, w, cur, B, F, s.rows.metrics.Keys, span);
    StillOpen(p, B, F);
    StillCursor(p, w, cur, F, s.rows.metrics.Keys, span);
    hide *;
    AllOpened(p, w, cur, B, F, s.rows, c, m);
    BucketsExact(p, w, F, s.rows.metrics, c, m, [], s.rows.cycles, m);
    RebuiltOpen(p, w, s, span);
    BeforeParts(p, w, F, s.rows, c, m);
  }

  lemma BeforeParts(p: Params, w: int, F: seq<Fix>, rows: Rows, c: int, m: int)
    requires w > 0 && RowsBefore(p, w, F, rows.cycles, rows.metrics, c, m)
    ensures RightBefore(p, F, rows.cycles, c) && forall b :: b < m ==> RightAt(p, w, F, rows.metrics, b)
  {
    hide RightBefore, RightAt;
  }

  lemma RebuiltOpen(p: Params, w: int, s: State, span: Span)
    requires w > 0 && p.cap.Some? && 0 < |s.positions| && StillInOpenVisit(p, ReadFrom(s.positions, span), span)
    ensures var rows := Rebuilt(p, w, s, span).0;
            && rows.cycles == s.rows.cycles
            && rows.metrics == Rewritten(p, w, s.rows.metrics, s.positions, span.metricsFrom, [],
                                         Kept(p, s.rows.cycles, span.cyclesFrom, span.metricsFrom))
  {
    hide Rewritten, Kept, StillInOpenVisit;
  }

  /** The stored cycles are all the track's: none opens at or after the visit still under way. */
  lemma {:induction false} AllOpened(p: Params, w: int, cur: Cursor, B: seq<Fix>, F: seq<Fix>, rows: Rows, c: int,
                                     m: int)
    requires Setting(p, w) && Sorted(B) && Sorted(F) && 0 < |B| && 0 < |F| && Share(B, F, |B|) && cur.dirty.None?
    requires RecentAt(p, w, cur, B, F, rows) && RowsBefore(p, w, F, rows.cycles, rows.metrics, c, m)
    requires FullResume(p, B) == FullResume(p, F) == Resume(c, true, true) && F[|F|-1].ts - c < p.cap.value
    ensures rows.cycles == Table(p, F) && forall y :: y in Table(p, F) ==> y.start < c
  {
    hide Setting, RecentAt, Table, FullResume, Sorted, Share, RightAt;
    forall y: Cycle | y.start >= c ensures y !in rows.cycles && y !in Table(p, F) {
      NoneOpen(p, w, cur, B, F, rows, c, y);
    }
    assert forall y: Cycle :: y in rows.cycles <==> y in Table(p, F);
  }

  lemma StillCursor(p: Params, w: int, cur: Cursor, F: seq<Fix>, stored: set<int>, span: Span)
    requires w > 0 && p.cap.Some? && ChooseWindow(p, w, cur, F, stored) == Some(span)
    requires StillInOpenVisit(p, ReadFrom(F, span), span)
    ensures cur.dirty.None? && cur.resume.Some?
  {
  }

  /** No cycle is stored, or opens, at or after a visit still under way. */
  lemma {:induction false} NoneOpen(p: Params, w: int, cur: Cursor, B: seq<Fix>, F: seq<Fix>, rows: Rows, c: int,
                                    y: Cycle)
    requires Setting(p, w) && Sorted(B) && Sorted(F) && 0 < |B| && 0 < |F| && Share(B, F, |B|) && cur.dirty.None?
    requires RecentAt(p, w, cur, B, F, rows)
    requires FullResume(p, B) == FullResume(p, F) == Resume(c, true, true) && F[|F|-1].ts - c < p.cap.value
    requires y.start >= c
    ensures y !in rows.cycles && y !in Table(p, F)
  {
    hide Table, FullResume, Right, Sorted, Share;
    if y in Table(p, F) {
      OpenStart(p, B, F, y);
      assert false;
    }
    if y in rows.cycles {
      assert y in Table(p, B);
      ShareSelf(B);
      OpenStart(p, B, B, y);
      assert false;
    }
  }

  lemma ShareSelf(B: seq<Fix>)
    ensures Share(B, B, |B|)
  {
  }

  lemma RebuiltIs(p: Params, w: int, s: State, span: Span)
    requires w > 0 && p.cap.Some? && 0 < |s.positions| && !StillInOpenVisit(p, ReadFrom(s.positions, span), span)
    ensures Rebuilt(p, w, s, span) ==
      (Finished(p, w, s.positions, s.rows, span), ResumeFrom(p, s.positions, span.cyclesFrom, span.known))
  {
    hide StillInOpenVisit, Finished, ResumeFrom;
  }

  /** A tick's window reads up to the newest fix. */
  lemma TickReads(p: Params, w: int, cur: Cursor, B: seq<Fix>, F: seq<Fix>, span: Span)
    requires Setting(p, w) && Knows(p, w, cur, B, F) && 0 < |F| && StartsSafe(p, w, cur, F, span)
    requires cur.resume.None? ==> span.cyclesFrom == F[0].ts
    ensures F[|F|-1].ts >= Min(span.metricsFrom, span.cyclesFrom - p.minExit)
  {
    KnownShape(p, w, cur, B, F);
    if cur.resume.Some? {
      ResumeByLast(p, w, cur, B, F);
    }
    hide FullResume, NextMetricsFrom, Floor, GoodWindow, SafeBucket, GrewFrom;
  }

  /** The cursor's restart point is no later than the newest fix. */
  lemma {:induction false} ResumeByLast(p: Params, w: int, cur: Cursor, B: seq<Fix>, F: seq<Fix>)
    requires w > 0 && Knows(p, w, cur, B, F) && cur.resume.Some?
    ensures 0 < |F| && cur.resume.value.ts <= F[|F|-1].ts
  {
    KnownShape(p, w, cur, B, F);
    hide NextMetricsFrom, Anchor;
    assert FullResume(p, B).ts <= B[|B|-1].ts;
    assert B[|B|-1] in F;
    LastOf(F, B[|B|-1]);
  }

  /** A tick that rebuilds leaves every row right, and the whole track's restart point in the cursor. */
  lemma {:induction false} TickRight(p: Params, w: int, s: State, n: Notes)
    requires Setting(p, w) && Inv(p, w, s, n) && FirstWhole(w, s, n) && !PassedOver(p, w, s)
    requires Reliable(p, s, n)
    ensures var t := AfterTick(p, w, s); var F := s.positions;
            && 0 < |F| && t == State(F, Some(Moved(p, w, s.cursor.value.(dirty := None), F)), t.rows, s.job)
            && Right(p, w, F, t.rows.cycles, t.rows.metrics)
  {
    var cur, F, B := s.cursor.value, s.positions, n.base;
    var span := ChooseWindow(p, w, cur, F, s.rows.metrics.Keys).value;
    InvParts(p, w, s, n);
    KnownShape(p, w, cur, B, F);
    TickBefore(p, w, s, n, span);
    WindowGood(p, w, cur, B, F, s.rows.metrics.Keys);
    if cur.resume.None? {
      FirstWindow(p, w, cur, F, s.rows.metrics.Keys);
    }
    hide Table;
    TickReads(p, w, cur, B, F, span);
    hide Inv, FirstWhole, Reliable, Knows, ChooseWindow, VouchedAt, RecentAt, JobRows, Sane, AllOfKin, Rebuilt;
    hide Right;
    hide RowsBefore, FullResume, NextMetricsFrom, Floor, Sorted, StillInOpenVisit;
    if StillInOpenVisit(p, ReadFrom(F, span), span) {
      OpenRight(p, w, s, n, span);
    } else {
      RebuiltIs(p, w, s, span);
      MinIs(span.cyclesFrom, span.metricsFrom);
      RebuildExact(p, w, F, s.rows.cycles, s.rows.metrics, span.cyclesFrom, span.metricsFrom, span.known,
                   Min(span.cyclesFrom, span.metricsFrom));
      RebuildRight(p, F, s.rows.cycles, span.cyclesFrom, span.known, Min(span.cyclesFrom, span.metricsFrom));
      FinishedIs(p, w, F, s.rows, span);
    }
  }

  /** Right rows, and a cursor that has read everything, are all the invariant asks. */
  lemma {:induction false} RightInv(p: Params, w: int, s: State, t: State, n: Notes)
    requires Setting(p, w) && Inv(p, w, s, n) && s.cursor.Some? && 0 < |s.positions|
    requires t == State(s.positions, Some(Moved(p, w, s.cursor.value.(dirty := None), s.positions)), t.rows, s.job)
    requires Right(p, w, s.positions, t.rows.cycles, t.rows.metrics)
    ensures Inv(p, w, t, Notes(s.positions, s.positions, false))
  {
    var cur, F := s.cursor.value, s.positions;
    hide *;
    InvParts(p, w, s, n);
    KnownShape(p, w, cur, n.base, F);
    SettingIs(p, w);
    MovedClean(p, w, cur, n.base, F);
    var after := Moved(p, w, cur.(dirty := None), F);
    RightStands(p, w, after, F, t.rows);
    if s.job.Some? {
      RightJob(p, w, cur, after, F, s.rows, t.rows, s.job.value, n.written, n.missed);
    }
    MakeInv(p, w, t, Notes(F, F, false));
  }

  lemma MovedClean(p: Params, w: int, cur: Cursor, B: seq<Fix>, F: seq<Fix>)
    requires w > 0 && Knows(p, w, cur, B, F)
    ensures 0 < |F| && var after := Moved(p, w, cur.(dirty := None), F);
            Knows(p, w, after, F, F) && after.resume.Some? && after.dirty.None?
  {
    hide FullResume, NextMetricsFrom;
  }

  lemma RightJob(p: Params, w: int, cur: Cursor, after: Cursor, F: seq<Fix>, rows: Rows, next: Rows, span: Span,
                 J: seq<Fix>, missed: bool)
    requires w > 0 && 0 < |F| && Sorted(F) && JobRows(p, w, cur, F, rows, span, J, missed)
    requires forall c, m :: RightSoFar(p, w, after, F, next, c, m)
    ensures JobRows(p, w, after, F, next, span, F, false)
  {
    GrewSelf(F, span.cyclesFrom + Lookback(p));
    hide RightSoFar, Floor, GrewFrom, Sorted;
  }

  lemma MakeInv(p: Params, w: int, s: State, n: Notes)
    requires w > 0 && p.cap.Some? && s.cursor.Some? && 0 < |s.positions|
    requires var cur := s.cursor.value;
             && Knows(p, w, cur, n.base, s.positions)
             && Sane(p, w, s.positions, s.rows) && AllOfKin(p, cur, n.base, s.rows)
             && (cur.resume.Some? ==> Computed(cur) && VouchedAt(p, w, cur, n.base, s.rows)
                                      && RecentAt(p, w, cur, n.base, s.positions, s.rows))
             && (cur.resume.None? && s.job.None? ==> s.rows == NOTHING)
             && (s.job.Some? ==> JobRows(p, w, cur, s.positions, s.rows, s.job.value, n.written, n.missed))
    ensures Inv(p, w, s, n)
  {
    hide Knows, Sane, AllOfKin, VouchedAt, RecentAt, JobRows;
  }

  /** A tick keeps the invariant. */
  lemma {:induction false} TickKeeps(p: Params, w: int, s: State, n: Notes)
    requires Setting(p, w) && Inv(p, w, s, n) && FirstWhole(w, s, n) && Reliable(p, s, n)
    ensures Inv(p, w, AfterTick(p, w, s), NextNotes(p, w, s, n, Tick))
  {
    if !PassedOver(p, w, s) {
      hide Inv, FirstWhole, Reliable, Right, Rebuilt, PassedOver, Knows;
      TickRight(p, w, s, n);
      RightInv(p, w, s, AfterTick(p, w, s), n);
    }
  }

  lemma TrustedBase(p: Params, w: int, s: State, n: Notes)
    requires Setting(p, w) && Inv(p, w, s, n) && s.cursor.Some? && Quiet(p, n.base)
    ensures Trusted(p, s.cursor.value, n.base)
  {
    InvParts(p, w, s, n);
    KnownShape(p, w, s.cursor.value, n.base, s.positions);
    hide Inv, Quiet;
    QuietTrusted(p, s.cursor.value, n.base) by {
      assert Sorted(n.base);
    }
  }

  // ---- a transaction of an on-demand rebuild --------------------------------------------------

  /** What one starts from: a window that finds every cycle, reaching no further than the newest
      fix, with right rows before it unless a fix was missed. */
  ghost predicate FromHere(p: Params, w: int, s: State, span: Span, missed: bool)
    requires w > 0 && s.cursor.Some? && 0 < |s.positions|
  {
    && GoodStart(p, w, s.positions, span) && Near(w, span) && span.cyclesFrom <= s.positions[|s.positions|-1].ts
    && Floor(s.positions[0].ts, w) <= Min(span.cyclesFrom, span.metricsFrom)
    && Before(p, w, s.cursor.value, s.positions, s.rows, span, missed)
  }

  lemma {:induction false} SliceInv(p: Params, w: int, s: State, n: Notes, span: Span, end: int, missed: bool)
    requires Setting(p, w) && Inv(p, w, s, n) && s.cursor.Some? && 0 < |s.positions|
    requires Trusted(p, s.cursor.value, n.base) && CalmPast(p, s.positions, end)
    requires FromHere(p, w, s, span, missed) && SliceEnd(p, w, s.positions, span) == Some(end)
    ensures Inv(p, w, AfterSlice(p, w, s, span), n.(written := s.positions, missed := missed))
  {
    var cur, F, B := s.cursor.value, s.positions, n.base;
    InvParts(p, w, s, n);
    KnownShape(p, w, cur, B, F);
    SliceAdvances(p, w, F, span);
    hide *;
    SettingIs(p, w);
    var next := Sliced(p, w, F, s.rows, span, end);
    HereParts(p, w, s, span, missed);
    SliceAdvances(p, w, F, span);
    StartParts(p, w, F, span);
    WroteSlice(p, w, F, s.rows, span, end);
    WroteSane(p, w, F, s.rows, next, span, Some(end));
    WroteKin(p, w, cur, B, F, s.rows, next, span, Some(end));
    SliceJob(p, w, cur, F, s.rows, next, span, end, missed);
    if cur.resume.Some? {
      VouchedSame(p, w, cur, B, F, s.rows);
      WroteVouched(p, w, cur, B, F, s.rows, next, span, Some(end));
      VouchedSame(p, w, cur, B, F, next);
      SliceRecent(p, w, cur, B, F, s.rows, next, span, end);
    }
    SlicedIs(p, w, s, span, end);
    MakeInv(p, w, AfterSlice(p, w, s, span), n.(written := F, missed := missed));
  }

  lemma HereParts(p: Params, w: int, s: State, span: Span, missed: bool)
    requires w > 0 && s.cursor.Some? && 0 < |s.positions| && FromHere(p, w, s, span, missed)
    ensures GoodStart(p, w, s.positions, span) && Near(w, span) && span.cyclesFrom <= s.positions[|s.positions|-1].ts
    ensures Floor(s.positions[0].ts, w) <= Min(span.cyclesFrom, span.metricsFrom)
    ensures Before(p, w, s.cursor.value, s.positions, s.rows, span, missed)
  {
    hide GoodStart, Near, Floor, Before;
  }

  lemma SlicedIs(p: Params, w: int, s: State, span: Span, end: int)
    requires w > 0 && p.cap.Some? && 0 < |s.positions| && SliceEnd(p, w, s.positions, span) == Some(end)
    ensures AfterSlice(p, w, s, span) ==
      s.(rows := Sliced(p, w, s.positions, s.rows, span, end),
         job := Some(Span(end, EntryKnownAt(s.positions, end), end, None)))
  {
    hide Sliced, EntryKnownAt, SliceEnd;
  }

  lemma {:induction false} FinishInv(p: Params, w: int, s: State, n: Notes, span: Span, missed: bool)
    requires Setting(p, w) && Inv(p, w, s, n) && s.cursor.Some? && 0 < |s.positions|
    requires Trusted(p, s.cursor.value, n.base)
    requires FromHere(p, w, s, span, missed) && SliceEnd(p, w, s.positions, span).None?
    requires EndsWell(p, w, s, missed, span)
    ensures Inv(p, w, AfterSlice(p, w, s, span), Notes(s.positions, s.positions, false))
  {
    var cur, F, B := s.cursor.value, s.positions, n.base;
    InvParts(p, w, s, n);
    KnownShape(p, w, cur, B, F);
    assert Reaches(p, F, span.cyclesFrom) &&
      (missed ==> cur.dirty.Some? && cur.dirty.value < FullResume(p, F).ts + p.minVisit);
    hide *;
    SettingIs(p, w);
    var next := Finished(p, w, F, s.rows, span);
    HereParts(p, w, s, span, missed);
    StartParts(p, w, F, span);
    WroteAll(p, w, F, s.rows, span);
    FinishStands(p, w, cur, B, F, s.rows, next, span, missed);
    RebuildRight(p, F, s.rows.cycles, span.cyclesFrom, span.known, span.cyclesFrom);
    EndsAt(p, w, s, span);
  }

  lemma EndsAt(p: Params, w: int, s: State, span: Span)
    requires w > 0 && p.cap.Some? && p.Ok() && s.cursor.Some? && 0 < |s.positions|
    requires SliceEnd(p, w, s.positions, span).None?
    requires span.cyclesFrom <= s.positions[|s.positions|-1].ts
    requires ResumeFrom(p, s.positions, span.cyclesFrom, span.known) == FullResume(p, s.positions)
    ensures AfterSlice(p, w, s, span) ==
      State(s.positions, Some(Moved(p, w, s.cursor.value, s.positions)), Finished(p, w, s.positions, s.rows, span),
            None)
  {
    hide Finished, ResumeFrom, FullResume, SliceEnd, NextMetricsFrom;
  }

  /** One transaction keeps the invariant. */
  lemma {:induction false} WriteKeeps(p: Params, w: int, s: State, n: Notes, span: Span, missed: bool)
    requires Setting(p, w) && Inv(p, w, s, n) && s.cursor.Some? && 0 < |s.positions|
    requires Trusted(p, s.cursor.value, n.base) && CalmSlice(p, w, s.positions, span)
    requires FromHere(p, w, s, span, missed)
    requires EndsWell(p, w, s, missed, span)
    ensures Inv(p, w, AfterSlice(p, w, s, span), AfterWrite(p, w, s, n.(missed := missed), span))
  {
    hide Inv, CalmPast, FromHere, EndsWell, Trusted, AfterSlice, SliceEnd;
    if SliceEnd(p, w, s.positions, span).Some? {
      SliceInv(p, w, s, n, span, SliceEnd(p, w, s.positions, span).value, missed);
    } else {
      FinishInv(p, w, s, n, span, missed);
    }
  }

  /** An on-demand rebuild that starts no later than the cursor. */
  lemma {:induction false} BeginsHere(p: Params, w: int, s: State, n: Notes, start: Option<int>)
    requires Setting(p, w) && Inv(p, w, s, n) && s.cursor.Some? && 0 < |s.positions|
    requires Trusted(p, s.cursor.value, n.base)
    requires NoLater(w, s, OnDemandWindow(p, w, s.positions, start, s.rows.metrics.Keys))
    ensures var span := OnDemandWindow(p, w, s.positions, start, s.rows.metrics.Keys);
            FromHere(p, w, s, span, PassesMark(p, w, s, span))
  {
    var cur, F := s.cursor.value, s.positions;
    var span := OnDemandWindow(p, w, F, start, s.rows.metrics.Keys);
    InvParts(p, w, s, n);
    KnownShape(p, w, cur, n.base, F);
    OnDemandStart(p, w, F, start, s.rows.metrics.Keys);
    StartsAfterFirst(p, w, F, start, s.rows.metrics.Keys);
    if cur.resume.Some? {
      ResumeByLast(p, w, cur, n.base, F);
    }
    hide Inv, Quiet, Knows, Sane, AllOfKin, VouchedAt, RecentAt, JobRows, GoodStart, Floor, Near, OnDemandWindow;
    hide Trusted;
    hide RightSoFar, Sorted, SafeFrom;
    if !PassesMark(p, w, s, span) {
      BeginsAfterRight(p, w, cur, n.base, F, s.rows, span);
    }
  }

  lemma StartsAfterFirst(p: Params, w: int, F: seq<Fix>, start: Option<int>, stored: set<int>)
    requires w > 0 && 0 < |F|
    ensures var span := OnDemandWindow(p, w, F, start, stored);
      Floor(F[0].ts, w) <= Min(span.cyclesFrom, span.metricsFrom)
  {
    hide Floor;
    var span := OnDemandWindow(p, w, F, start, stored);
    FloorMono(F[0].ts, span.cyclesFrom, w);
    BucketSpan(F[0].ts, w);
  }

  /** The rebuild under way continues. */
  lemma {:induction false} ContinuesHere(p: Params, w: int, s: State, n: Notes)
    requires Setting(p, w) && Inv(p, w, s, n) && s.cursor.Some? && s.job.Some?
    requires 0 < |s.positions| && CalmPast(p, n.written, s.job.value.cyclesFrom)
    ensures FromHere(p, w, s, s.job.value, n.missed)
  {
    var cur, F, span := s.cursor.value, s.positions, s.job.value;
    InvParts(p, w, s, n);
    KnownShape(p, w, cur, n.base, F);
    if !n.missed {
      ContinuesRight(p, w, cur, F, s.rows, span, n.written);
    }
    if F[0].ts >= span.cyclesFrom {
      FloorMono(span.cyclesFrom, F[0].ts, w);
    }
    hide Inv, CalmPast, Knows, Sane, AllOfKin, VouchedAt, RecentAt, Floor, RightSoFar, GrewFrom, StartAt, Sorted;
  }

  // ---- every operation, every run -------------------------------------------------------------

  /** Every operation that comes at its moment keeps the invariant. */
  lemma {:induction false} OpKeeps(p: Params, w: int, s: State, n: Notes, op: Op)
    requires Setting(p, w) && Inv(p, w, s, n) && Careful(p, w, s, n, op)
    ensures Inv(p, w, Next(p, w, s, op), NextNotes(p, w, s, n, op))
  {
    hide Inv, CalmPast, CalmSlice, Trusted, AfterSlice, AfterTick, AfterStore, EndsWell, FromHere, AfterWrite;
    hide PassesMark, OnDemandWindow;
    match op {
      case Store(f) => StoreKeeps(p, w, s, n, f);
      case Tick => TickKeeps(p, w, s, n);
      case Recompute(start) =>
        if 0 < |s.positions| {
          HasCursor(p, w, s, n);
          var span := OnDemandWindow(p, w, s.positions, start, s.rows.metrics.Keys);
          BeginsHere(p, w, s, n, start);
          WriteKeeps(p, w, s, n, span, PassesMark(p, w, s, span));
        }
      case Continue =>
        if 0 < |s.positions| && s.job.Some? {
          HasCursor(p, w, s, n);
          ContinuesHere(p, w, s, n);
          WriteKeeps(p, w, s, n, s.job.value, n.missed);
        }
    }
  }

  lemma HasCursor(p: Params, w: int, s: State, n: Notes)
    requires w > 0 && p.cap.Some? && Inv(p, w, s, n) && 0 < |s.positions|
    ensures s.cursor.Some?
  {
  }

  lemma StartInv(p: Params, w: int)
    requires Setting(p, w)
    ensures Inv(p, w, START, Notes([], [], false))
  {
  }

  lemma {:induction false} RunInv(p: Params, w: int, ops: seq<Op>)
    requires Setting(p, w) && Sound(p, w, ops)
    ensures Inv(p, w, AfterAll(p, w, ops), NotesOf(p, w, ops))
  {
    hide Inv, Next, NextNotes, Careful, Quiet;
    if |ops| == 0 {
      StartInv(p, w);
    } else {
      var init := ops[..|ops|-1];
      RunInv(p, w, init);
      OpKeeps(p, w, AfterAll(p, w, init), NotesOf(p, w, init), ops[|ops|-1]);
    }
  }

  /** Nothing is marked, and the cursor has read the newest fix. */
  predicate AllRead(s: State) {
    s.cursor.Some? ==>
      s.cursor.value.dirty.None? && 0 < |s.positions| && s.cursor.value.through == Some(s.positions[|s.positions|-1].ts)
  }

  /** Whatever was stored, in whatever order, with ticks and slices of on-demand rebuilds in between:
      whenever nothing is left unread, the cycles, the buckets and the restart point are those of the
      whole history. */
  lemma {:induction false} RunRight(p: Params, w: int, ops: seq<Op>)
    requires Setting(p, w) && Sound(p, w, ops) && AllRead(AfterAll(p, w, ops))
    ensures var s := AfterAll(p, w, ops);
            && Right(p, w, s.positions, s.rows.cycles, s.rows.metrics)
            && (s.cursor.Some? ==> s.cursor.value.resume == Some(FullResume(p, s.positions)))
  {
    RunInv(p, w, ops);
    ReadRight(p, w, AfterAll(p, w, ops), NotesOf(p, w, ops));
  }

  lemma {:induction false} ReadRight(p: Params, w: int, s: State, n: Notes)
    requires Setting(p, w) && Inv(p, w, s, n) && AllRead(s)
    ensures Right(p, w, s.positions, s.rows.cycles, s.rows.metrics)
    ensures s.cursor.Some? ==> s.cursor.value.resume == Some(FullResume(p, s.positions))
  {
    if s.cursor.Some? {
      InvParts(p, w, s, n);
      NothingUnread(p, w, s.cursor.value, n.base, s.positions);
      hide Inv, Knows, Sane, AllOfKin, VouchedAt, JobRows, FullResume, Right;
    } else {
      hide FullResume;
    }
  }

  lemma {:induction false} NothingUnread(p: Params, w: int, cur: Cursor, B: seq<Fix>, F: seq<Fix>)
    requires w > 0 && Knows(p, w, cur, B, F) && 0 < |F| && cur.dirty.None? && cur.through == Some(F[|F|-1].ts)
    ensures F == B && cur.resume == Some(FullResume(p, F))
  {
    hide FullResume;
    GrewAfter(B, F);
    ShareAt(B, F, |B|, |B| - 1);
    assert |F| <= |B|;
    assert F == F[..|B|] == B[..|B|] == B;
  }

  /** After a tick nothing is. */
  lemma {:induction false} TickReadsAll(p: Params, w: int, s: State, n: Notes)
    requires Setting(p, w) && Inv(p, w, s, n) && FirstWhole(w, s, n) && Reliable(p, s, n)
    ensures AllRead(AfterTick(p, w, s))
  {
    hide *;
    SettingIs(p, w);
    if s.cursor.Some? {
      if PassedOver(p, w, s) {
        PassedReads(p, w, s, n);
      } else {
        TickRight(p, w, s, n);
        MovedReads(p, w, s.cursor.value.(dirty := None), AfterTick(p, w, s));
      }
    } else {
      NoCursorReads(p, w, s);
    }
  }

  lemma PassedReads(p: Params, w: int, s: State, n: Notes)
    requires Setting(p, w) && Inv(p, w, s, n) && s.cursor.Some? && PassedOver(p, w, s)
    ensures AllRead(AfterTick(p, w, s))
  {
    InvParts(p, w, s, n);
    hide Inv, Knows, VouchedAt, RecentAt, JobRows, Sane, AllOfKin;
    PassedBy(p, w, s.cursor.value, n.base, s.positions, s.rows.metrics.Keys);
  }

  lemma MovedReads(p: Params, w: int, cur: Cursor, t: State)
    requires w > 0 && 0 < |t.positions| && cur.dirty.None? && t.cursor == Some(Moved(p, w, cur, t.positions))
    ensures AllRead(t)
  {
    hide FullResume, NextMetricsFrom;
  }

  lemma NoCursorReads(p: Params, w: int, s: State)
    requires w > 0 && p.cap.Some? && s.cursor.None?
    ensures AllRead(AfterTick(p, w, s))
  {
  }

  /** So a run that ends in a tick leaves nothing unread. */
  lemma {:induction false} TickEnds(p: Params, w: int, ops: seq<Op>)
    requires Setting(p, w) && Sound(p, w, ops) && |ops| > 0 && ops[|ops|-1].Tick?
    ensures AllRead(AfterAll(p, w, ops))
  {
    var init := ops[..|ops|-1];
    RunInv(p, w, init);
    hide Inv, Quiet, AfterTick;
    TickReadsAll(p, w, AfterAll(p, w, init), NotesOf(p, w, init));
  }

  // ---- runs that are sound --------------------------------------------------------------------

  /** With stored fixes and ticks alone, only the tracks that earlier ticks rebuilt matter. */
  lemma {:induction false} PlainSound(p: Params, w: int, ops: seq<Op>)
    requires Setting(p, w) && forall op :: op in ops ==> op.Store? || op.Tick?
    requires forall k :: 0 <= k < |ops| - 1 && ops[k].Tick? ==> Quiet(p, AfterAll(p, w, ops[..k]).positions)
    ensures Sound(p, w, ops)
  {
    SettingIs(p, w);
    if |ops| > 0 {
      var init, op := ops[..|ops|-1], ops[|ops|-1];
      forall k | 0 <= k < |init| && init[k].Tick? ensures Quiet(p, AfterAll(p, w, init[..k]).positions) {
        assert init[..k] == ops[..k];
      }
      assert op in ops;
      hide AfterAll, Quiet, NotesOf, Setting, Careful;
      PlainSound(p, w, init);
      PlainNotes(p, w, init);
      PlainCareful(p, w, init, op);
    }
  }

  lemma PlainCareful(p: Params, w: int, ops: seq<Op>, op: Op)
    requires Setting(p, w) && Sound(p, w, ops) && (op.Store? || op.Tick?) && AfterAll(p, w, ops).job == None
    requires var n := NotesOf(p, w, ops); Quiet(p, n.base) && !n.missed
    ensures Careful(p, w, AfterAll(p, w, ops), NotesOf(p, w, ops), op)
  {
    SettingIs(p, w);
    hide AfterAll, Quiet, NotesOf, Setting, Sound, Trusted, Inv;
    var s, n := AfterAll(p, w, ops), NotesOf(p, w, ops);
    RunInv(p, w, ops);
    if s.cursor.Some? {
      TrustedBase(p, w, s, n);
    }
  }

  lemma {:induction false} PlainNotes(p: Params, w: int, ops: seq<Op>)
    requires w > 0 && p.cap.Some? && forall op :: op in ops ==> op.Store? || op.Tick?
    requires forall k :: 0 <= k < |ops| && ops[k].Tick? ==> Quiet(p, AfterAll(p, w, ops[..k]).positions)
    ensures AfterAll(p, w, ops).job == None
    ensures var n := NotesOf(p, w, ops); Quiet(p, n.base) && !n.missed
  {
    hide Quiet, Rebuilt, Advanced, ChooseWindow, IsNew, Inserted, Marked;
    if |ops| == 0 {
      EmptyQuiet(p);
    } else {
      var init, op := ops[..|ops|-1], ops[|ops|-1];
      forall k | 0 <= k < |init| && init[k].Tick? ensures Quiet(p, AfterAll(p, w, init[..k]).positions) {
        assert init[..k] == ops[..k];
      }
      assert op in ops;
      PlainNotes(p, w, init);
    }
  }

  lemma EmptyQuiet(p: Params)
    ensures Quiet(p, [])
  {
  }

  /** A rebuild of everything, or asked to start no later than the newest fix the cursor has read,
      reaches back to the restart point, and passes no mark when there is none; and it starts no later
      than the cursor, unless it leaves out the track's first bucket and the cursor has not passed
      that. */
  lemma {:induction false} StartRead(p: Params, w: int, s: State, n: Notes, start: Option<int>)
    requires Setting(p, w) && Inv(p, w, s, n) && s.cursor.Some? && Computed(s.cursor.value) && 0 < |s.positions|
    requires start.Some? ==> start.value <= s.cursor.value.through.value
    ensures var span := OnDemandWindow(p, w, s.positions, start, s.rows.metrics.Keys);
            && Reaches(p, s.positions, span.cyclesFrom)
            && (s.cursor.value.dirty.None? ==> !PassesMark(p, w, s, span))
            && (NoLater(w, s, span) <==>
                  (LeavesFirst(w, s.positions, span) ==>
                     s.cursor.value.metricsFrom.value > Floor(s.positions[0].ts, w)))
  {
    var cur, F, B := s.cursor.value, s.positions, n.base;
    InvParts(p, w, s, n);
    KnownShape(p, w, cur, B, F);
    RestartWithinReach(p, B);
    RestartWithinReach(p, F);
    RestartAtLeastFirst(p, B);
    RestartAtLeastFirst(p, F);
    BaseWithin(p, w, cur, B, F);
    var x := B[|B|-1].ts - p.minVisit - p.minExit;
    hide Inv, FullResume, Sane, AllOfKin, VouchedAt, RecentAt, JobRows, GrewFrom, OnDemandWindow, Floor;
    OnDemandSpan(p, w, F, start, s.rows.metrics.Keys);
    if start.Some? && start.value - Lookback(p) > F[0].ts {
      FloorMono(start.value - Lookback(p), x, w);
    }
    if Floor(F[0].ts, w) < Floor(x, w) {
      FloorBefore(Floor(F[0].ts, w), x, w);
      FloorAgain(F[0].ts, w);
    }
  }

  lemma {:induction false} BaseWithin(p: Params, w: int, cur: Cursor, B: seq<Fix>, F: seq<Fix>)
    requires w > 0 && Knows(p, w, cur, B, F) && cur.resume.Some?
    ensures 0 < |B| && 0 < |F| && F[0].ts <= B[0].ts && B[|B|-1].ts <= F[|F|-1].ts
  {
    hide FullResume, NextMetricsFrom;
    assert B[0] in F && B[|B|-1] in F;
    FirstOf(F, B[0]);
    LastOf(F, B[|B|-1]);
  }
}

/** When a tick, or a rebuild and the tick after it, leave the rows right: conditions that are exact. */
module Conditions {
  import opened Wrappers
  import opened Track
  import opened Cycles
  import opened Analysis
  import opened Locality
  import opened Restart
  import opened Finality
  import opened Metrics
  import opened Recompute
  import opened Buckets
  import opened Refresh
  import opened Stored
  import opened Slices
  import opened Runs
  import opened Standing
  import opened Interleavings
  import opened FirstBucket
  import opened Rebuilds
  import opened Resumption

  // ---- what a tick leaves alone ---------------------------------------------------------------

  /** A tick leaves every cycle opened before its window. */
  lemma {:induction false} TickLeaves(p: Params, w: int, s: State, y: Cycle)
    requires Setting(p, w) && Sorted(s.positions) && !PassedOver(p, w, s)
    requires var span := ChooseWindow(p, w, s.cursor.value, s.positions, s.rows.metrics.Keys).value;
             Begins(p, s.positions, span.cyclesFrom, span.known) && y.start < span.cyclesFrom
    ensures y in AfterTick(p, w, s).rows.cycles <==> y in s.rows.cycles
  {
    var span := ChooseWindow(p, w, s.cursor.value, s.positions, s.rows.metrics.Keys).value;
    hide ChooseWindow, StillInOpenVisit, Begins, Advanced, Kept, Rewritten, Found, Table, Sorted, ResumeFrom, Setting;
    if !StillInOpenVisit(p, ReadFrom(s.positions, span), span) {
      SettingIs(p, w);
      FoundAre(p, s.positions, span.cyclesFrom, span.known);
      BeyondWithin(Found(p, s.positions, span.cyclesFrom, span.known), SliceKept(p, span, s.rows.cycles));
    }
  }

  /** A rebuild to the newest fix that a tick makes leaves every row right if and only if the rows
      before its window were. */
  lemma {:induction false} TickExact(p: Params, w: int, s: State)
    requires Setting(p, w) && Sorted(s.positions) && !PassedOver(p, w, s)
    requires var span := ChooseWindow(p, w, s.cursor.value, s.positions, s.rows.metrics.Keys).value;
             && Begins(p, s.positions, span.cyclesFrom, span.known) && Floor(span.metricsFrom, w) == span.metricsFrom
             && !StillInOpenVisit(p, ReadFrom(s.positions, span), span)
    ensures var span := ChooseWindow(p, w, s.cursor.value, s.positions, s.rows.metrics.Keys).value;
            var rows := AfterTick(p, w, s).rows;
            Right(p, w, s.positions, rows.cycles, rows.metrics)
            <==> RowsBefore(p, w, s.positions, s.rows.cycles, s.rows.metrics, span.cyclesFrom, span.metricsFrom)
  {
    var F := s.positions;
    var span := ChooseWindow(p, w, s.cursor.value, F, s.rows.metrics.Keys).value;
    SettingIs(p, w);
    hide ChooseWindow, StillInOpenVisit, Begins, Advanced, Sorted, ResumeFrom, Setting, Right, RowsBefore, Rebuilt;
    hide Floor;
    RebuiltIs(p, w, s, span);
    MinIs(span.cyclesFrom, span.metricsFrom);
    RebuildExact(p, w, F, s.rows.cycles, s.rows.metrics, span.cyclesFrom, span.metricsFrom, span.known,
                 Min(span.cyclesFrom, span.metricsFrom));
    FinishedIs(p, w, F, s.rows, span);
  }

  lemma NothingNew(p: Params, w: int, s: State)
    requires w > 0 && p.cap.Some? && 0 < |s.positions| && s.cursor.Some? && s.cursor.value.resume.Some?
    requires s.cursor.value.metricsFrom.Some? && s.cursor.value.dirty.None?
    requires s.cursor.value.through == Some(s.positions[|s.positions|-1].ts)
    ensures Next(p, w, s, Tick) == s
  {
    hide Rebuilt;
  }

  // ---- the next tick, when nothing is marked ----------------------------------------------------

  ghost predicate RightAfterTick(p: Params, w: int, s: State, G: seq<Fix>)
    requires Setting(p, w)
  {
    var t := AfterTick(p, w, s.(positions := G));
    Right(p, w, G, t.rows.cycles, t.rows.metrics)
  }

  /** Rows that are right for one track are right for another, before a window, if and only if the
      tracks have the same cycles and buckets there. */
  lemma {:induction false} BeforeIs(p: Params, w: int, B: seq<Fix>, G: seq<Fix>, rows: Rows, c: int, m: int)
    requires w > 0 && RowsBefore(p, w, B, rows.cycles, rows.metrics, c, m)
    ensures RowsBefore(p, w, G, rows.cycles, rows.metrics, c, m)
       <==> SameBefore(p, B, G, c) && forall b :: b < m ==> SameBucket(p, w, B, G, b)
  {
    hide Table, RightAt, SameBucket;
    forall b | b < m ensures RightAt(p, w, G, rows.metrics, b) <==> SameBucket(p, w, B, G, b) {
      RowIs(p, w, B, G, rows.metrics, b);
    }
    assert RightBefore(p, G, rows.cycles, c) <==> SameBefore(p, B, G, c);
  }

  lemma RowIs(p: Params, w: int, B: seq<Fix>, G: seq<Fix>, metrics: map<int, Bucket>, b: int)
    requires w > 0 && RightAt(p, w, B, metrics, b)
    ensures RightAt(p, w, G, metrics, b) <==> SameBucket(p, w, B, G, b)
  {
    hide FullMetrics;
  }

  lemma RightIsBefore(p: Params, w: int, B: seq<Fix>, rows: Rows, c: int, m: int)
    requires w > 0 && Right(p, w, B, rows.cycles, rows.metrics)
    ensures RowsBefore(p, w, B, rows.cycles, rows.metrics, c, m)
  {
    hide Table, FullMetrics;
  }

  /** What a tick makes of right rows and newer fixes: right rows, if the window's start is one that
      nothing can have changed. */
  lemma {:induction false} NextTickIs(p: Params, w: int, s: State, G: seq<Fix>)
    requires Setting(p, w) && s.cursor.Some? && Computed(s.cursor.value) && s.cursor.value.dirty.None?
    requires var B := s.positions; Knows(p, w, s.cursor.value, B, B) && Right(p, w, B, s.rows.cycles, s.rows.metrics)
    requires Extends(s.positions, G)
    ensures var cur := s.cursor.value;
            RightAfterTick(p, w, s, G)
            <==> SameBefore(p, s.positions, G, cur.resume.value.ts)
                 && forall b :: b < cur.metricsFrom.value ==> SameBucket(p, w, s.positions, G, b)
  {
    var B, cur, t := s.positions, s.cursor.value, s.(positions := G);
    KnownShape(p, w, cur, B, B);
    var c, m := cur.resume.value.ts, cur.metricsFrom.value;
    RightIsBefore(p, w, B, s.rows, c, m);
    BeforeIs(p, w, B, G, s.rows, c, m);
    GrewOn(p, w, cur, B, G);
    SettingIs(p, w);
    if PassedOver(p, w, t) {
      hide *;
      PassedOn(p, w, s, G);
    } else {
      hide *;
      NextWindow(p, w, cur, B, G, s.rows.metrics.Keys);
      var span := ChooseWindow(p, w, cur, G, s.rows.metrics.Keys).value;
      if StillInOpenVisit(p, ReadFrom(G, span), span) {
        OpenTickIs(p, w, s, G, span);
      } else {
        TickExact(p, w, t);
      }
      ReadsRight(p, w, s, G);
    }
  }

  lemma ReadsRight(p: Params, w: int, s: State, G: seq<Fix>)
    requires Setting(p, w)
    ensures var t := AfterTick(p, w, s.(positions := G));
            RightAfterTick(p, w, s, G) <==> Right(p, w, G, t.rows.cycles, t.rows.metrics)
  {
    hide AfterTick, Right;
  }

  lemma {:induction false} GrewOn(p: Params, w: int, cur: Cursor, B: seq<Fix>, G: seq<Fix>)
    requires w > 0 && Knows(p, w, cur, B, B) && cur.resume.Some? && cur.dirty.None? && Extends(B, G)
    ensures Knows(p, w, cur, B, G) && Sorted(G) && 0 < |G|
  {
    hide FullResume, NextMetricsFrom;
    ShareAt(B, G, |B|, |B| - 1);
    var t := B[|B|-1].ts + 1;
    forall g | g in B ensures g in G {
      var i :| 0 <= i < |B| && B[i] == g;
      ShareAt(B, G, |B|, i);
    }
    forall g | g in G && g.ts < t ensures g in B {
      var i :| 0 <= i < |G| && G[i] == g;
      ShareAt(B, G, |B|, i);
    }
  }

  lemma {:induction false} PassedOn(p: Params, w: int, s: State, G: seq<Fix>)
    requires Setting(p, w) && s.cursor.Some? && Knows(p, w, s.cursor.value, s.positions, G)
    requires PassedOver(p, w, s.(positions := G)) && 0 < |G|
    requires Right(p, w, s.positions, s.rows.cycles, s.rows.metrics)
    ensures RightAfterTick(p, w, s, G) && forall c :: SameBefore(p, s.positions, G, c)
    ensures forall b :: SameBucket(p, w, s.positions, G, b)
  {
    PassedBy(p, w, s.cursor.value, s.positions, G, s.rows.metrics.Keys);
    hide Table, FullMetrics, Knows, ChooseWindow;
  }

  /** The window from the cursor. */
  lemma NextWindow(p: Params, w: int, cur: Cursor, B: seq<Fix>, G: seq<Fix>, stored: set<int>)
    requires w > 0 && p.Ok() && p.cap.Some? && Knows(p, w, cur, B, G) && Computed(cur) && cur.dirty.None?
    requires ChooseWindow(p, w, cur, G, stored).Some?
    ensures var span := ChooseWindow(p, w, cur, G, stored).value;
            && span.cyclesFrom == cur.resume.value.ts && span.metricsFrom == cur.metricsFrom.value
            && Begins(p, G, span.cyclesFrom, span.known) && Floor(span.metricsFrom, w) == span.metricsFrom
  {
    CursorSpan(p, w, cur, B, G, stored);
    hide Floor, FullResume, StartAt, Knows;
  }

  /** The fast path, for a visit still open. */
  lemma {:induction false} OpenTickIs(p: Params, w: int, s: State, G: seq<Fix>, span: Span)
    requires Setting(p, w) && s.cursor.Some? && Computed(s.cursor.value) && s.cursor.value.dirty.None? && 0 < |G|
    requires Knows(p, w, s.cursor.value, s.positions, G) && !PassedOver(p, w, s.(positions := G))
    requires Right(p, w, s.positions, s.rows.cycles, s.rows.metrics)
    requires ChooseWindow(p, w, s.cursor.value, G, s.rows.metrics.Keys) == Some(span)
    requires StillInOpenVisit(p, ReadFrom(G, span), span) && Floor(span.metricsFrom, w) == span.metricsFrom
    ensures RightAfterTick(p, w, s, G)
       <==> RowsBefore(p, w, G, s.rows.cycles, s.rows.metrics, span.cyclesFrom, span.metricsFrom)
  {
    var B, cur, t, c, m := s.positions, s.cursor.value, s.(positions := G), span.cyclesFrom, span.metricsFrom;
    KnownShape(p, w, cur, B, G);
    OpenSpan(p, w, cur, B, G, s.rows.metrics.Keys, span);
    StillOpen(p, B, G);
    assert t.rows == s.rows && t.cursor == s.cursor && t.positions == G;
    hide *;
    TickRebuilds(p, w, t, span);
    RebuiltOpen(p, w, t, span);
    ReadsRight(p, w, s, G);
    AllRecent(p, w, cur, B, G, s.rows);
    SettingIs(p, w);
    if RowsBefore(p, w, G, s.rows.cycles, s.rows.metrics, c, m) {
      Interleavings.AllOpened(p, w, cur, B, G, s.rows, c, m);
      BucketsExact(p, w, G, s.rows.metrics, c, m, [], s.rows.cycles, m) by {
        NoneListed(p, G, c);
      }
      Interleavings.BeforeParts(p, w, G, s.rows, c, m);
      MakeRight(p, w, G, AfterTick(p, w, t).rows);
    }
    if RightAfterTick(p, w, s, G) {
      KeptBefore(p, w, G, s.rows, AfterTick(p, w, t).rows, c, m);
    }
  }

  lemma TickRebuilds(p: Params, w: int, t: State, span: Span)
    requires Setting(p, w) && !PassedOver(p, w, t)
    requires ChooseWindow(p, w, t.cursor.value, t.positions, t.rows.metrics.Keys) == Some(span)
    ensures 0 < |t.positions| && AfterTick(p, w, t).rows == Rebuilt(p, w, t, span).0
  {
    hide Rebuilt, Advanced, ChooseWindow;
  }

  lemma AllRecent(p: Params, w: int, cur: Cursor, B: seq<Fix>, G: seq<Fix>, rows: Rows)
    requires w > 0 && 0 < |G| && Right(p, w, B, rows.cycles, rows.metrics)
    ensures RecentAt(p, w, cur, B, G, rows)
  {
    hide Table, FullMetrics;
  }

  lemma NoneListed(p: Params, G: seq<Fix>, c: int)
    ensures Rising([])
  {
  }

  lemma MakeRight(p: Params, w: int, G: seq<Fix>, rows: Rows)
    requires w > 0 && rows.cycles == Table(p, G) && rows.metrics == FullMetrics(p, w, G)
    ensures Right(p, w, G, rows.cycles, rows.metrics)
  {
    hide Table, FullMetrics;
  }

  /** Right rows were right, before the window, as they were left alone there. */
  lemma KeptBefore(p: Params, w: int, G: seq<Fix>, rows: Rows, after: Rows, c: int, m: int)
    requires w > 0 && p.cap.Some? && Sorted(G) && Floor(m, w) == m && Right(p, w, G, after.cycles, after.metrics)
    requires after.cycles == rows.cycles
    requires after.metrics == Rewritten(p, w, rows.metrics, G, m, [], Kept(p, rows.cycles, c, m))
    ensures RowsBefore(p, w, G, rows.cycles, rows.metrics, c, m)
  {
    hide Table, FullMetrics, Rewritten, Floor, Sorted, Kept;
    forall b | b < m ensures RightAt(p, w, G, rows.metrics, b) {
      BucketKept(p, w, G, rows.metrics, m, [], Kept(p, rows.cycles, c, m), b);
    }
  }

  /** With nothing marked, and rows that are right for the track the cursor has read, the next tick
      leaves them right, whatever newer fixes are stored before it, if and only if the track is firm. */
  lemma {:induction false} NextTickExact(p: Params, w: int, s: State)
    requires Setting(p, w) && s.cursor.Some? && Computed(s.cursor.value) && s.cursor.value.dirty.None?
    requires var B := s.positions; Knows(p, w, s.cursor.value, B, B) && Right(p, w, B, s.rows.cycles, s.rows.metrics)
    ensures 0 < |s.positions|
    ensures Firm(p, s.positions) <==> forall G :: Extends(s.positions, G) ==> RightAfterTick(p, w, s, G)
  {
    var B, cur := s.positions, s.cursor.value;
    KnownShape(p, w, cur, B, B);
    KnownResume(p, w, cur, B);
    SettingIs(p, w);
    hide *;
    if Firm(p, B) {
      forall G | Extends(B, G) ensures RightAfterTick(p, w, s, G) {
        FirmSame(p, B, G);
        forall b | b < cur.metricsFrom.value ensures SameBucket(p, w, B, G, b) {
          ExtendBuckets(p, w, B, G, b);
        }
        NextTickIs(p, w, s, G);
      }
    } else {
      var G := UnfirmDiffers(p, B);
      NextTickIs(p, w, s, G);
    }
  }

  lemma KnownResume(p: Params, w: int, cur: Cursor, B: seq<Fix>)
    requires w > 0 && Knows(p, w, cur, B, B) && Computed(cur)
    ensures 0 < |B| && cur.resume.value == FullResume(p, B)
    ensures cur.metricsFrom.value == NextMetricsFrom(p, w, B[|B|-1].ts)
  {
    hide FullResume, NextMetricsFrom;
  }

  // ---- the first tick of all --------------------------------------------------------------------

  /** It leaves every row right if and only if the first fix lies on a boundary, or slices have stored
      nothing of its bucket, or what they have stored is right. */
  lemma {:induction false} FirstTickExact(p: Params, w: int, s: State)
    requires Setting(p, w) && s.cursor.Some? && Knows(p, w, s.cursor.value, [], s.positions)
    requires s.cursor.value.resume.None? && 0 < |s.positions| && FromFirst(w, s.positions, s.rows)
    ensures var F := s.positions; var rows := AfterTick(p, w, s).rows;
            Right(p, w, F, rows.cycles, rows.metrics)
            <==> First(w, F) == F[0].ts || First(w, F) !in s.rows.metrics
                 || RightAt(p, w, F, s.rows.metrics, First(w, F))
  {
    var F, cur := s.positions, s.cursor.value;
    KnownShape(p, w, cur, [], F);
    SettingIs(p, w);
    FirstWindow(p, w, cur, F, s.rows.metrics.Keys);
    var span := ChooseWindow(p, w, cur, F, s.rows.metrics.Keys).value;
    assert !PassedOver(p, w, s) && !StillInOpenVisit(p, ReadFrom(F, span), span);
    assert Begins(p, F, span.cyclesFrom, span.known) && Floor(span.metricsFrom, w) == span.metricsFrom;
    assert span.metricsFrom ==
      if First(w, F) < F[0].ts && First(w, F) in s.rows.metrics then First(w, F) + w else First(w, F);
    hide *;
    TickExact(p, w, s);
    FirstOnly(p, w, F, s.rows, span.metricsFrom);
    FirstBounds(w, F);
  }

  // ---- a mark ---------------------------------------------------------------------------------

  /** A cycle that opened before the cursor, no further back of a mark than the lookback, and is not
      stored: the next tick writes it if and only if the mark lies less than `minVisit` past the
      cursor's load entry. */
  lemma {:induction false} MarkExact(p: Params, w: int, s: State, y: Cycle)
    requires Setting(p, w) && Sorted(s.positions) && 0 < |s.positions| && s.cursor.Some? && Computed(s.cursor.value)
    requires s.cursor.value.dirty.Some? && y.start < s.cursor.value.resume.value.ts
    requires y in Table(p, s.positions) && y !in s.rows.cycles && y.start >= s.cursor.value.dirty.value - Lookback(p)
    requires RightBefore(p, s.positions, s.rows.cycles, s.cursor.value.dirty.value - Lookback(p))
    requires forall z :: z in s.rows.cycles ==> z.start >= s.positions[0].ts
    ensures y in AfterTick(p, w, s).rows.cycles <==> TooEarly(p, s.cursor.value)
  {
    hide *;
    OpensLater(p, s.positions, y);
    ComputedParts(s.cursor.value);
    if TooEarly(p, s.cursor.value) {
      EarlyWindow(p, w, s);
      EarlyTick(p, w, s, y);
    } else {
      NotEarly(p, s.cursor.value);
      TickPasses(p, w, s, y);
    }
  }

  lemma ComputedParts(cur: Cursor)
    requires Computed(cur)
    ensures cur.resume.Some? && cur.metricsFrom.Some? && cur.through.Some?
  {
  }

  lemma NotEarly(p: Params, cur: Cursor)
    requires Computed(cur) && !TooEarly(p, cur)
    ensures cur.dirty.Some? ==> cur.dirty.value >= cur.resume.value.ts + p.minVisit
  {
  }

  /** The window of a tick that goes back: the lookback before the mark, or the first fix. */
  lemma EarlyWindow(p: Params, w: int, s: State)
    requires Setting(p, w) && 0 < |s.positions| && s.cursor.Some? && Computed(s.cursor.value)
    requires TooEarly(p, s.cursor.value)
    ensures !PassedOver(p, w, s)
    ensures var F := s.positions; var d := s.cursor.value.dirty.value;
            var span := ChooseWindow(p, w, s.cursor.value, F, s.rows.metrics.Keys).value;
            && (span.cyclesFrom == d - Lookback(p) || span.cyclesFrom == F[0].ts >= d - Lookback(p))
            && Begins(p, F, span.cyclesFrom, span.known) && !StillInOpenVisit(p, ReadFrom(F, span), span)
  {
    hide StartAt, Floor, Lookback;
  }

  lemma {:induction false} EarlyTick(p: Params, w: int, s: State, y: Cycle)
    requires Setting(p, w) && Sorted(s.positions) && !PassedOver(p, w, s) && 0 < |s.positions| && s.cursor.Some?
    requires s.cursor.value.dirty.Some?
    requires var span := ChooseWindow(p, w, s.cursor.value, s.positions, s.rows.metrics.Keys).value;
             && (span.cyclesFrom == s.cursor.value.dirty.value - Lookback(p)
                 || span.cyclesFrom == s.positions[0].ts >= s.cursor.value.dirty.value - Lookback(p))
             && Begins(p, s.positions, span.cyclesFrom, span.known)
             && !StillInOpenVisit(p, ReadFrom(s.positions, span), span)
    requires RightBefore(p, s.positions, s.rows.cycles, s.cursor.value.dirty.value - Lookback(p))
    requires forall z :: z in s.rows.cycles ==> z.start >= s.positions[0].ts
    requires y in Table(p, s.positions)
    ensures y in AfterTick(p, w, s).rows.cycles
  {
    var F := s.positions;
    var span := ChooseWindow(p, w, s.cursor.value, F, s.rows.metrics.Keys).value;
    hide ChooseWindow, StillInOpenVisit, Begins, Advanced, Table, Sorted, ResumeFrom, Setting, Rebuilt, Lookback;
    SettingIs(p, w);
    FirstOrBack(p, F, s.rows.cycles, span.cyclesFrom, s.cursor.value.dirty.value - Lookback(p));
    RebuildRight(p, F, s.rows.cycles, span.cyclesFrom, span.known, Min(span.cyclesFrom, span.metricsFrom));
    RebuiltIs(p, w, s, span);
    FinishedIs(p, w, F, s.rows, span);
  }

  lemma FirstOrBack(p: Params, F: seq<Fix>, cycles: set<Cycle>, c: int, back: int)
    requires Sorted(F) && 0 < |F| && RightBefore(p, F, cycles, back) && (c == back || c == F[0].ts)
    requires forall z :: z in cycles ==> z.start >= F[0].ts
    ensures RightBefore(p, F, cycles, c)
  {
    hide Table;
    if c == F[0].ts {
      forall y | y in Table(p, F) ensures y.start >= F[0].ts {
        OpensLater(p, F, y);
      }
    }
  }

  // ---- a rebuild that starts past a cycle's opening ---------------------------------------------

  /** A window restarts no earlier than it starts, or at the newest fix. */
  lemma {:induction false} ResumeWithin(p: Params, F: seq<Fix>, c: int, known: bool)
    requires 0 < |F|
    ensures ResumeFrom(p, F, c, known).ts >= Min(c, F[|F|-1].ts)
  {
    var lo := LeadIndex(p, F, c);
    var W := F[lo..];
    assert W[|W|-1] == F[|F|-1];
    hide StartAt, LeadIndex, LastOpener, Pending, MayStillClose, LastStart;
  }

  /** The cursor after a rebuild that reads up to the newest fix. */
  lemma EndCursor(p: Params, w: int, s: State, span: Span)
    requires w > 0 && p.cap.Some? && p.Ok() && 0 < |s.positions| && s.cursor.Some?
    requires SliceEnd(p, w, s.positions, span).None? && span.cyclesFrom <= s.positions[|s.positions|-1].ts
    ensures var F := s.positions; var last := F[|F|-1].ts; var resume := ResumeFrom(p, F, span.cyclesFrom, span.known);
            AfterSlice(p, w, s, span) ==
              State(F, Some(Cursor(Some(resume), Some(NextMetricsFrom(p, w, last)), Some(last), s.cursor.value.dirty)),
                    Finished(p, w, F, s.rows, span), None)
  {
    hide Finished, ResumeFrom, SliceEnd, NextMetricsFrom;
  }

  /** A tick from a restart point past a cycle's opening does not write it, whatever fixes follow. */
  lemma {:induction false} TickPasses(p: Params, w: int, s: State, y: Cycle)
    requires Setting(p, w) && Sorted(s.positions) && 0 < |s.positions| && s.positions[0].ts <= y.start
    requires s.cursor.Some? && s.cursor.value.resume.Some? && s.cursor.value.metricsFrom.Some?
    requires var cur := s.cursor.value; var r := cur.resume.value;
             y.start < r.ts && (cur.dirty.Some? ==> cur.dirty.value >= r.ts + p.minVisit)
    ensures y in AfterTick(p, w, s).rows.cycles <==> y in s.rows.cycles
  {
    if !PassedOver(p, w, s) {
      TickLeaves(p, w, s, y) by {
        hide StartAt, Floor;
      }
    }
  }

  /** The state after an on-demand rebuild that nothing came between, with the fixes of `G` stored. */
  ghost function RebuiltThen(p: Params, w: int, s: State, start: Option<int>, G: seq<Fix>): State
    requires Setting(p, w) && 0 < |s.positions|
  {
    var span := OnDemandWindow(p, w, s.positions, start, s.rows.metrics.Keys);
    OnDemandSliceable(p, w, s.positions, start, s.rows.metrics.Keys);
    Undisturbed(p, w, s, span).(positions := G)
  }

  /** From past a cycle's opening, and to the newest fix. */
  predicate StartsPast(p: Params, w: int, s: State, start: Option<int>, y: Cycle)
    requires w > 0 && 0 < |s.positions|
  {
    var F := s.positions;
    F[0].ts <= y.start < OnDemandWindow(p, w, F, start, s.rows.metrics.Keys).cyclesFrom <= F[|F|-1].ts
  }

  /** Such a rebuild leaves the cycle as it was, and the cursor past its opening: at the track's restart
      point, if the window reaches back to it.  With nothing marked the next tick leaves the cycle too,
      whatever newer fixes are stored before it. */
  lemma {:induction false} RestartPassed(p: Params, w: int, s: State, start: Option<int>, G: seq<Fix>, y: Cycle)
    requires Setting(p, w) && Sorted(s.positions) && 0 < |s.positions| && s.cursor.Some?
    requires Extends(s.positions, G) && StartsPast(p, w, s, start, y)
    ensures var t := RebuiltThen(p, w, s, start, G);
            var span := OnDemandWindow(p, w, s.positions, start, s.rows.metrics.Keys);
            && t.cursor.Some? && Computed(t.cursor.value) && t.cursor.value.dirty == s.cursor.value.dirty
            && Untouched(s.rows, t.rows, span.cyclesFrom, span.metricsFrom)
            && (y in t.rows.cycles <==> y in s.rows.cycles) && y.start < t.cursor.value.resume.value.ts
            && (Reaches(p, s.positions, span.cyclesFrom) ==> t.cursor.value.resume.value == FullResume(p, s.positions))
            && (s.cursor.value.dirty.None? ==> (y in AfterTick(p, w, t).rows.cycles <==> y in s.rows.cycles))
  {
    var F := s.positions;
    var span := OnDemandWindow(p, w, F, start, s.rows.metrics.Keys);
    assert F[0].ts <= y.start < span.cyclesFrom <= F[|F|-1].ts;
    ShareAt(F, G, |F|, 0);
    assert Sorted(G) && 0 < |G| && G[0] == F[0];
    SettingParts(p, w);
    OnDemandSliceable(p, w, F, start, s.rows.metrics.Keys);
    var t := RebuiltThen(p, w, s, start, G);
    assert t == Undisturbed(p, w, s, span).(positions := G);
    hide *;
    UndisturbedIs(p, w, s, span);
    LastSpanGood(p, w, F, span);
    var end := LastSpan(p, w, F, span);
    CursorThere(p, w, s.cursor.value, F, end, ResumeFrom(p, F, end.cyclesFrom, end.known));
    ResumeWithin(p, F, end.cyclesFrom, end.known);
    EndWithin(p, F, span, end);
    RebuildUntouched(p, w, F, s.rows, span, span.cyclesFrom, span.metricsFrom);
    UntouchedCycle(s.rows, t.rows, span.cyclesFrom, span.metricsFrom, y);
    MinIs(end.cyclesFrom, F[|F|-1].ts);
    StartParts(p, w, F, end);
    RebuildRight(p, F, {}, end.cyclesFrom, end.known, 0);
    IsComputed(t.cursor.value);
    if s.cursor.value.dirty.None? {
      TickPasses(p, w, t, y);
    }
  }

  /** When one transaction does for it, that is what it leaves. */
  lemma OneTransaction(p: Params, w: int, s: State, start: Option<int>, G: seq<Fix>)
    requires Setting(p, w) && 0 < |s.positions|
    requires SliceEnd(p, w, s.positions, OnDemandWindow(p, w, s.positions, start, s.rows.metrics.Keys)).None?
    ensures RebuiltThen(p, w, s, start, G) == Next(p, w, s, Recompute(start)).(positions := G)
  {
    var span := OnDemandWindow(p, w, s.positions, start, s.rows.metrics.Keys);
    OnDemandSliceable(p, w, s.positions, start, s.rows.metrics.Keys);
    assert RebuiltThen(p, w, s, start, G) == Undisturbed(p, w, s, span).(positions := G);
    SettingParts(p, w);
    hide *;
    NoSlice(p, w, s, span);
    NextRecompute(p, w, s, start);
  }

  lemma CursorThere(p: Params, w: int, cur: Cursor, F: seq<Fix>, end: Span, resume: Resume)
    requires w > 0 && 0 < |F| && p.Ok() && end.cyclesFrom <= F[|F|-1].ts
    ensures Advanced(p, w, cur, F, end, resume, cur.dirty) ==
      Cursor(Some(resume), Some(NextMetricsFrom(p, w, F[|F|-1].ts)), Some(F[|F|-1].ts), cur.dirty)
  {
    hide NextMetricsFrom;
  }

  lemma EndWithin(p: Params, F: seq<Fix>, span: Span, end: Span)
    requires p.Ok() && p.cap.Some? && 0 < |F| && span.cyclesFrom <= F[|F|-1].ts
    requires end == span || end.cyclesFrom <= F[|F|-1].ts - Lookback(p)
    ensures end.cyclesFrom <= F[|F|-1].ts
  {
  }

  lemma UntouchedCycle(before: Rows, after: Rows, c: int, m: int, y: Cycle)
    requires Untouched(before, after, c, m) && y.start < c
    ensures y in after.cycles <==> y in before.cycles
  {
    hide SameRow;
  }

  lemma IsComputed(cur: Cursor)
    requires cur.resume.Some? && cur.metricsFrom.Some? && cur.through.Some?
    ensures Computed(cur)
  {
  }

  /** With a fix marked, and a cycle of the track that is not stored, the next tick writes the cycle if
      and only if the mark lies less than `minVisit` past the load entry at which the rebuild has left
      the cursor. */
  lemma {:induction false} ForgottenExact(p: Params, w: int, s: State, B: seq<Fix>, start: Option<int>, G: seq<Fix>,
                                          y: Cycle)
    requires Setting(p, w) && s.cursor.Some? && Knows(p, w, s.cursor.value, B, s.positions) && Computed(s.cursor.value)
    requires Right(p, w, B, s.rows.cycles, s.rows.metrics)
    requires s.cursor.value.dirty.Some? && CalmBy(p, B, s.cursor.value.dirty.value, p.minVisit + p.minExit)
    requires 0 < |s.positions| && Extends(s.positions, G) && StartsPast(p, w, s, start, y)
    requires y in Table(p, G) && y !in s.rows.cycles
    ensures var span := OnDemandWindow(p, w, s.positions, start, s.rows.metrics.Keys);
            var t := RebuiltThen(p, w, s, start, G); var d := s.cursor.value.dirty.value;
            && t.cursor.Some? && Computed(t.cursor.value)
            && (y in AfterTick(p, w, t).rows.cycles <==> d < t.cursor.value.resume.value.ts + p.minVisit)
            && (Reaches(p, s.positions, span.cyclesFrom) ==> t.cursor.value.resume.value == FullResume(p, s.positions))
  {
    hide *;
    var F, cur := s.positions, s.cursor.value;
    var d := cur.dirty.value;
    SettingParts(p, w);
    KnownShape(p, w, cur, B, F);
    MarkedGrowth(p, w, cur, B, F, G);
    LookbackWindow(p, B, G, d);
    RestartPassed(p, w, s, start, G, y);
    PastParts(p, w, s, start, G, y);
    var t := RebuiltThen(p, w, s, start, G);
    var span := OnDemandWindow(p, w, F, start, s.rows.metrics.Keys);
    RightCycles(p, w, B, s.rows);
    NoneBeforeFirst(p, B, F, s.rows);
    MissingIsLater(p, B, G, s.rows, d - Lookback(p), y);
    BackRight(p, B, G, s.rows, t.rows, span.cyclesFrom, span.metricsFrom, d - Lookback(p), F[0].ts);
    FirstStays(F, G);
    MarkExact(p, w, t, y);
    EarlyIs(p, t.cursor.value);
  }

  lemma PastParts(p: Params, w: int, s: State, start: Option<int>, G: seq<Fix>, y: Cycle)
    requires Setting(p, w) && 0 < |s.positions| && StartsPast(p, w, s, start, y)
    ensures s.positions[0].ts <= y.start < OnDemandWindow(p, w, s.positions, start, s.rows.metrics.Keys).cyclesFrom
    ensures RebuiltThen(p, w, s, start, G).positions == G
  {
    hide OnDemandWindow, Undisturbed;
  }

  lemma {:induction false} MarkedGrowth(p: Params, w: int, cur: Cursor, B: seq<Fix>, F: seq<Fix>, G: seq<Fix>)
    requires w > 0 && Knows(p, w, cur, B, F) && Computed(cur) && cur.dirty.Some? && Extends(F, G)
    ensures GrewFrom(B, G, cur.dirty.value) && LastsTo(B, cur.dirty.value) && Sorted(F) && Sorted(G) && Includes(F, B)
  {
    hide FullResume, NextMetricsFrom;
    var d := cur.dirty.value;
    forall g | g in F ensures g in G {
      var i :| 0 <= i < |F| && F[i] == g;
      ShareAt(F, G, |F|, i);
    }
    assert B[|B|-1] in F;
    LastOf(F, B[|B|-1]);
    ShareAt(F, G, |F|, |F| - 1);
    forall g | g in G && g.ts < d ensures g in B {
      var i :| 0 <= i < |G| && G[i] == g;
      assert i < |F|;
      ShareAt(F, G, |F|, i);
    }
  }

  lemma RightCycles(p: Params, w: int, B: seq<Fix>, rows: Rows)
    requires w > 0 && Right(p, w, B, rows.cycles, rows.metrics)
    ensures rows.cycles == Table(p, B)
  {
    hide Table, FullMetrics;
  }

  lemma NoneBeforeFirst(p: Params, B: seq<Fix>, F: seq<Fix>, rows: Rows)
    requires Sorted(F) && 0 < |F| && Includes(F, B) && rows.cycles == Table(p, B)
    ensures forall z :: z in rows.cycles ==> z.start >= F[0].ts
  {
    hide Table;
    forall z | z in rows.cycles ensures z.start >= F[0].ts {
      OpensAtFix(p, B, F, z);
    }
  }

  lemma FirstStays(F: seq<Fix>, G: seq<Fix>)
    requires 0 < |F| && Extends(F, G)
    ensures 0 < |G| && G[0] == F[0] && Sorted(G)
  {
    ShareAt(F, G, |F|, 0);
  }

  /** A cycle that is missing opened no further back than what nothing can have changed. */
  lemma MissingIsLater(p: Params, B: seq<Fix>, G: seq<Fix>, rows: Rows, back: int, y: Cycle)
    requires rows.cycles == Table(p, B) && SameBefore(p, B, G, back) && y in Table(p, G) && y !in rows.cycles
    ensures y.start >= back
  {
    hide Table;
  }

  lemma BackRight(p: Params, B: seq<Fix>, G: seq<Fix>, rows: Rows, after: Rows, c: int, m: int, back: int, first: int)
    requires rows.cycles == Table(p, B) && SameBefore(p, B, G, back) && Untouched(rows, after, c, m)
    requires back <= c && first <= c && forall z :: z in rows.cycles ==> z.start >= first
    ensures RightBefore(p, G, after.cycles, back)
    ensures forall z :: z in after.cycles ==> z.start >= first
  {
    hide Table, SameRow;
  }

  lemma EarlyIs(p: Params, cur: Cursor)
    requires Computed(cur) && cur.dirty.Some?
    ensures TooEarly(p, cur) <==> cur.dirty.value < cur.resume.value.ts + p.minVisit
  {
  }

  // ---- a fix stored between two slices --------------------------------------------------------

  /** A rebuild is under way, its slices done; `f` comes, and the last transaction. */
  ghost predicate LastToCome(p: Params, w: int, s: State, f: Fix)
    requires w > 0
  {
    && Sorted(s.positions) && IsNew(s.positions, f) && s.job.Some?
    && s.cursor.Some? && s.cursor.value.through.Some? && s.cursor.value.dirty.None?
    && var G, span := Inserted(s.positions, f), s.job.value;
       0 < |G| && GoodStart(p, w, G, span) && SliceEnd(p, w, G, span).None? && span.cyclesFrom <= G[|G|-1].ts
  }

  ghost function StoredThenDone(p: Params, w: int, s: State, f: Fix): State
    requires w > 0 && p.cap.Some?
  {
    Next(p, w, Next(p, w, s, Store(f)), Continue)
  }

  /** What that leaves. */
  lemma {:induction false} DoneIs(p: Params, w: int, s: State, f: Fix)
    requires Setting(p, w) && LastToCome(p, w, s, f)
    ensures var G, span, t := Inserted(s.positions, f), s.job.value, StoredThenDone(p, w, s, f);
            var cur := Marked(s.cursor, f.ts); var last := G[|G|-1].ts;
            && Sorted(G) && f in G
            && t == State(G, Some(Cursor(Some(ResumeFrom(p, G, span.cyclesFrom, span.known)),
                                         Some(NextMetricsFrom(p, w, last)), Some(last), cur.dirty)),
                          Finished(p, w, G, s.rows, span), None)
  {
    InsertedSorted(s.positions, f);
    SettingParts(p, w);
    var t := AfterStore(s, f);
    hide Inserted, IsNew, Finished, ResumeFrom, NextMetricsFrom, GoodStart, SliceEnd, Sorted, Setting;
    NextStore(p, w, s, f);
    NextContinue(p, w, t);
    EndCursor(p, w, t, s.job.value);
  }

  lemma NextStore(p: Params, w: int, s: State, f: Fix)
    requires w > 0 && p.cap.Some?
    ensures Next(p, w, s, Store(f)) == AfterStore(s, f)
  {
    hide AfterStore;
  }

  /** Which buckets a rebuild to the newest fix leaves. */
  lemma FinishedBucket(p: Params, w: int, G: seq<Fix>, rows: Rows, span: Span, b: int)
    requires Sorted(G) && p.cap.Some? && w > 0 && Floor(span.metricsFrom, w) == span.metricsFrom
    ensures b in Finished(p, w, G, rows, span).metrics <==>
            if b >= span.metricsFrom then b in Starts(G, w) else b in rows.metrics
  {
    RowsFrom(p, w, G, span.metricsFrom, b);
    hide Content, Floor, Starts, FirstFrom, EndsIn, Ending, Found, Beyond, SliceKept, Sorted;
  }

  lemma InBucket(w: int, G: seq<Fix>, f: Fix)
    requires w > 0 && f in G
    ensures Floor(f.ts, w) in Starts(G, w)
  {
    hide Floor;
    var i :| 0 <= i < |G| && G[i] == f;
  }

  /** Ahead of what the cursor has read, the fix is not marked, and afterwards nothing is left unread: no
      tick changes anything more.  Every row is right if and only if those before the last window are
      right for the track with the fix in it; and the fix's bucket, if it is a new one, has been written
      if and only if it does not lie before that window. */
  lemma {:induction false} BetweenExact(p: Params, w: int, s: State, f: Fix)
    requires Setting(p, w) && LastToCome(p, w, s, f) && f.ts > s.cursor.value.through.value
    ensures var G, span, t := Inserted(s.positions, f), s.job.value, StoredThenDone(p, w, s, f);
            && t.positions == G && AllRead(t) && Next(p, w, t, Tick) == t
            && (Right(p, w, G, t.rows.cycles, t.rows.metrics)
                <==> RowsBefore(p, w, G, s.rows.cycles, s.rows.metrics, span.cyclesFrom, span.metricsFrom))
            && (Floor(f.ts, w) !in s.rows.metrics ==>
                  (Floor(f.ts, w) in t.rows.metrics <==> Floor(f.ts, w) >= span.metricsFrom))
  {
    JobGood(p, w, s, f);
    SettingParts(p, w);
    hide *;
    var G, span, t := Inserted(s.positions, f), s.job.value, StoredThenDone(p, w, s, f);
    DoneIs(p, w, s, f);
    NothingMarked(s, f);
    ReadAll(t);
    NothingNew(p, w, t);
    StartParts(p, w, G, span);
    FinishExact(p, w, G, s.rows, span);
    FinishedBucket(p, w, G, s.rows, span, Floor(f.ts, w));
    InBucket(w, G, f);
  }

  lemma JobGood(p: Params, w: int, s: State, f: Fix)
    requires w > 0 && LastToCome(p, w, s, f)
    ensures s.job.Some? && s.cursor.Some? && s.cursor.value.through.Some? && s.cursor.value.dirty.None?
    ensures var G := Inserted(s.positions, f);
            0 < |G| && GoodStart(p, w, G, s.job.value) && IsNew(s.positions, f) && Sorted(s.positions)
  {
    hide Inserted, GoodStart, IsNew, SliceEnd;
  }

  lemma NothingMarked(s: State, f: Fix)
    requires s.cursor.Some? && s.cursor.value.through.Some? && s.cursor.value.dirty.None?
    ensures Marked(s.cursor, f.ts) ==
      s.cursor.value.(dirty := if f.ts < s.cursor.value.through.value then Some(f.ts) else None)
  {
  }

  lemma ReadAll(t: State)
    requires 0 < |t.positions| && t.cursor.Some? && t.cursor.value.dirty.None?
    requires t.cursor.value.through == Some(t.positions[|t.positions|-1].ts)
    ensures AllRead(t)
  {
  }

  /** So if the rows before the window were right until then, they all are if and only if the fix
      changes none of them.  It changes its own bucket when it has a speed; and nothing there when it
      comes the lookback past the window, or later. */
  lemma {:induction false} MissedExact(p: Params, w: int, s: State, f: Fix)
    requires Setting(p, w) && LastToCome(p, w, s, f) && f.ts > s.cursor.value.through.value
    requires var c := s.job.value.cyclesFrom;
             && s.job.value.metricsFrom == c && Floor(c, w) == c
             && RowsBefore(p, w, s.positions, s.rows.cycles, s.rows.metrics, c, c)
    ensures var F, G, c, t := s.positions, Inserted(s.positions, f), s.job.value.cyclesFrom, StoredThenDone(p, w, s, f);
            var right := Right(p, w, G, t.rows.cycles, t.rows.metrics);
            && (right <==> SameBefore(p, F, G, c) && forall b :: b < c ==> SameBucket(p, w, F, G, b))
            && (right && f.speed.Some? ==> Floor(f.ts, w) >= c)
            && (f.ts >= c + Lookback(p) && CalmPast(p, F, c) && LastsTo(F, c + Lookback(p)) ==> right)
  {
    JobGood(p, w, s, f);
    SettingParts(p, w);
    hide *;
    var F, G, c, t := s.positions, Inserted(s.positions, f), s.job.value.cyclesFrom, StoredThenDone(p, w, s, f);
    BetweenExact(p, w, s, f);
    BeforeIs(p, w, F, G, s.rows, c, c);
    if f.speed.Some? {
      SpeedTells(p, w, F, f);
    }
    if f.ts >= c + Lookback(p) && CalmPast(p, F, c) && LastsTo(F, c + Lookback(p)) {
      AheadSame(p, w, F, f, c);
    }
  }

  /** A new fix with a speed changes its bucket. */
  lemma {:induction false} SpeedTells(p: Params, w: int, F: seq<Fix>, f: Fix)
    requires w > 0 && Sorted(F) && IsNew(F, f) && f.speed.Some?
    ensures !SameBucket(p, w, F, Inserted(F, f), Floor(f.ts, w))
  {
    var G, b, n := Inserted(F, f), Floor(f.ts, w), FirstFrom(F, f.ts);
    InsertedSorted(F, f);
    InBucket(w, G, f);
    hide Floor, Starts, Table, Ending, FirstFrom;
    if b in Starts(F, w) {
      FirstRow(p, w, F, b);
      FirstRow(p, w, G, b);
      SpeedsBefore(p, w, F, f, n);
      SpeedsAfter(p, w, F, f, |F|);
    }
    hide Content;
  }

  lemma {:induction false} SpeedsBefore(p: Params, w: int, F: seq<Fix>, f: Fix, i: nat)
    requires w > 0 && IsNew(F, f) && i <= FirstFrom(F, f.ts)
    ensures |Inserted(F, f)| == |F| + 1
    ensures Content(p, w, Inserted(F, f), Floor(f.ts, w), i).speedN == Content(p, w, F, Floor(f.ts, w), i).speedN
    decreases i
  {
    hide Floor, FirstFrom;
    if i > 0 {
      assert Inserted(F, f)[i-1] == F[i-1];
      SpeedsBefore(p, w, F, f, i - 1);
    }
  }

  lemma {:induction false} SpeedsAfter(p: Params, w: int, F: seq<Fix>, f: Fix, i: nat)
    requires w > 0 && IsNew(F, f) && FirstFrom(F, f.ts) <= i <= |F| && f.speed.Some?
    ensures |Inserted(F, f)| == |F| + 1
    ensures Content(p, w, Inserted(F, f), Floor(f.ts, w), i + 1).speedN
            == Content(p, w, F, Floor(f.ts, w), i).speedN + 1
    decreases i
  {
    hide Floor, FirstFrom;
    var n := FirstFrom(F, f.ts);
    if i > n {
      assert Inserted(F, f)[i] == F[i-1];
      SpeedsAfter(p, w, F, f, i - 1);
    } else {
      assert Inserted(F, f)[n] == f;
      SpeedsBefore(p, w, F, f, n);
    }
  }

  /** A fix so far ahead changes nothing that slices have written. */
  lemma {:induction false} AheadSame(p: Params, w: int, F: seq<Fix>, f: Fix, c: int)
    requires Setting(p, w) && Sorted(F) && IsNew(F, f) && f.ts >= c + Lookback(p) && Floor(c, w) == c
    requires CalmPast(p, F, c) && LastsTo(F, c + Lookback(p))
    ensures SameBefore(p, F, Inserted(F, f), c) && forall b :: b < c ==> SameBucket(p, w, F, Inserted(F, f), b)
  {
    hide *;
    SettingIs(p, w);
    InsertedSorted(F, f);
    var G, t := Inserted(F, f), c + Lookback(p);
    GrewBy(F, G, f, t);
    GrewLate(F, G, t);
    AgreeIndex(F, G, t);
    CalmPasses(p, F, G, c);
    FarSame(p, F, G, FirstFrom(F, t), t, c);
    forall b | b < c ensures SameBucket(p, w, F, G, b) {
      BeforeLookback(p, w, c);
      LateBuckets(p, w, F, G, t, b);
    }
  }

  lemma GrewBy(F: seq<Fix>, G: seq<Fix>, f: Fix, t: int)
    requires Sorted(F) && Sorted(G) && f.ts >= t && forall g :: g in G <==> g in F || g == f
    ensures GrewFrom(F, G, t)
  {
  }

  /** Behind what the cursor has read, the fix is marked, and the next tick writes its bucket; but a
      cycle that it brings, opened before the last window, only if the fix lies less than `minVisit`
      past the load entry at which the rebuild leaves the cursor. */
  lemma {:induction false} MarkedBetween(p: Params, w: int, s: State, f: Fix, y: Cycle)
    requires Setting(p, w) && LastToCome(p, w, s, f) && f.ts < s.cursor.value.through.value
    requires var G, c := Inserted(s.positions, f), s.job.value.cyclesFrom;
             && y in Table(p, G) && y !in s.rows.cycles && f.ts - Lookback(p) <= y.start < c
             && RightBefore(p, G, s.rows.cycles, f.ts - Lookback(p))
             && forall z :: z in s.rows.cycles ==> z.start >= G[0].ts
    ensures var G, t := Inserted(s.positions, f), StoredThenDone(p, w, s, f); var u := AfterTick(p, w, t);
            && t.cursor.Some? && Computed(t.cursor.value) && Floor(f.ts, w) in u.rows.metrics
            && (y in u.rows.cycles <==> f.ts < t.cursor.value.resume.value.ts + p.minVisit)
            && (Reaches(p, G, s.job.value.cyclesFrom) ==> t.cursor.value.resume.value == FullResume(p, G))
  {
    hide *;
    SettingParts(p, w);
    JobGood(p, w, s, f);
    JobEnds(p, w, s, f);
    var G, span, t := Inserted(s.positions, f), s.job.value, StoredThenDone(p, w, s, f);
    DoneIs(p, w, s, f);
    NothingMarked(s, f);
    IsComputed(t.cursor.value);
    StartParts(p, w, G, span);
    RebuildRight(p, G, {}, span.cyclesFrom, span.known, 0);
    ResumeWithin(p, G, span.cyclesFrom, span.known);
    MinIs(span.cyclesFrom, G[|G|-1].ts);
    FinishUntouched(p, w, G, s.rows, span, span.cyclesFrom, span.metricsFrom);
    UntouchedCycle(s.rows, t.rows, span.cyclesFrom, span.metricsFrom, y);
    OpensLater(p, G, y);
    StillBack(p, G, s.rows, t.rows, span.cyclesFrom, span.metricsFrom, f.ts - Lookback(p), G[0].ts, y);
    MarkExact(p, w, t, y);
    EarlyIs(p, t.cursor.value);
    NextAligned(p, w, G[|G|-1].ts);
    MarkedTick(p, w, t, f);
  }

  lemma NextAligned(p: Params, w: int, last: int)
    requires w > 0
    ensures Floor(NextMetricsFrom(p, w, last), w) == NextMetricsFrom(p, w, last)
  {
    FloorAgain(last - p.minVisit - p.minExit, w);
  }

  lemma JobEnds(p: Params, w: int, s: State, f: Fix)
    requires w > 0 && LastToCome(p, w, s, f)
    ensures var G := Inserted(s.positions, f);
            SliceEnd(p, w, G, s.job.value).None? && s.job.value.cyclesFrom <= G[|G|-1].ts
  {
    hide Inserted, GoodStart, IsNew, SliceEnd;
  }

  lemma StillBack(p: Params, G: seq<Fix>, rows: Rows, after: Rows, c: int, m: int, back: int, first: int, y: Cycle)
    requires RightBefore(p, G, rows.cycles, back) && Untouched(rows, after, c, m) && back <= y.start < c
    requires first <= y.start && forall z :: z in rows.cycles ==> z.start >= first
    ensures RightBefore(p, G, after.cycles, back)
    ensures forall z :: z in after.cycles ==> z.start >= first
  {
    hide Table, SameRow;
  }

  /** A tick writes the bucket of the fix that is marked. */
  lemma {:induction false} MarkedTick(p: Params, w: int, t: State, f: Fix)
    requires Setting(p, w) && Sorted(t.positions) && f in t.positions && t.cursor.Some? && Computed(t.cursor.value)
    requires t.cursor.value.dirty == Some(f.ts)
    requires Floor(t.cursor.value.metricsFrom.value, w) == t.cursor.value.metricsFrom.value
    ensures Floor(f.ts, w) in AfterTick(p, w, t).rows.metrics
  {
    var G, cur := t.positions, t.cursor.value;
    var span := ChooseWindow(p, w, cur, G, t.rows.metrics.Keys).value;
    assert !PassedOver(p, w, t) && !StillInOpenVisit(p, ReadFrom(G, span), span);
    assert span.metricsFrom == Min(cur.metricsFrom.value, Floor(f.ts, w) - w);
    FloorPrevious(f.ts, w);
    SettingParts(p, w);
    hide *;
    MinIs(cur.metricsFrom.value, Floor(f.ts, w) - w);
    TickRebuilds(p, w, t, span);
    RebuiltIs(p, w, t, span);
    FinishedBucket(p, w, G, t.rows, span, Floor(f.ts, w));
    InBucket(w, G, f);
  }
}

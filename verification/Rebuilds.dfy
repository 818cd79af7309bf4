/** An on-demand rebuild that nothing comes between: what its transactions together leave, and exactly
    when a rebuild from the first fix leaves every row right. */
module Rebuilds {
  import opened Wrappers
  import opened Track
  import opened Cycles
  import opened Analysis
  import opened Locality
  import opened Restart
  import opened Finality
  import opened Metrics
  import opened Recompute
  import opened Buckets
  import opened Refresh
  import opened Stored
  import opened Slices
  import opened Runs
  import opened FirstBucket
  import Resumption

  lemma OneMoreOp(p: Params, w: int, ops: seq<Op>, op: Op)
    requires w > 0 && p.cap.Some?
    ensures AfterAll(p, w, ops + [op]) == Next(p, w, AfterAll(p, w, ops), op)
    ensures NotesOf(p, w, ops + [op]) == NextNotes(p, w, AfterAll(p, w, ops), NotesOf(p, w, ops), op)
    ensures Sound(p, w, ops + [op]) <==>
      var n := NotesOf(p, w, ops);
      Sound(p, w, ops) && Careful(p, w, AfterAll(p, w, ops), n, op)
  {
    hide Next, NextNotes, Careful;
    assert (ops + [op])[..|ops|] == ops;
  }

  // ---- one rebuild ----------------------------------------------------------------------------

  /** How many slices it takes before the last transaction. */
  function Slicings(p: Params, w: int, F: seq<Fix>, span: Span): nat
    requires Setting(p, w) && Sliceable(w, F, span)
    decreases F[|F|-1].ts - Min(span.cyclesFrom, span.metricsFrom)
  {
    match SliceEnd(p, w, F, span)
    case None => 0
    case Some(end) =>
      SliceAdvances(p, w, F, span);
      1 + Slicings(p, w, F, NextSpan(F, end))
  }

  ghost function Continued(p: Params, w: int, s: State, n: nat): State
    requires w > 0 && p.cap.Some?
    decreases n
  {
    if n == 0 then s else Continued(p, w, Next(p, w, s, Continue), n - 1)
  }

  /** The state after a rebuild from `span`: its first transaction, and as many more as it takes. */
  ghost function Undisturbed(p: Params, w: int, s: State, span: Span): State
    requires Setting(p, w) && Sliceable(w, s.positions, span)
  {
    Continued(p, w, AfterSlice(p, w, s, span), Slicings(p, w, s.positions, span))
  }

  function Continues(n: nat): seq<Op> {
    if n == 0 then [] else [Continue] + Continues(n - 1)
  }

  /** It is a run: a first transaction, and as many more. */
  lemma {:induction false} UndisturbedRun(p: Params, w: int, ops: seq<Op>, start: Option<int>)
    requires Setting(p, w) && 0 < |AfterAll(p, w, ops).positions|
    ensures var s := AfterAll(p, w, ops); var span := OnDemandWindow(p, w, s.positions, start, s.rows.metrics.Keys);
            && Sliceable(w, s.positions, span)
            && AfterAll(p, w, ops + [Recompute(start)] + Continues(Slicings(p, w, s.positions, span)))
               == Undisturbed(p, w, s, span)
  {
    hide *;
    SettingParts(p, w);
    var s := AfterAll(p, w, ops);
    var span := OnDemandWindow(p, w, s.positions, start, s.rows.metrics.Keys);
    OnDemandSliceable(p, w, s.positions, start, s.rows.metrics.Keys);
    OneMoreOp(p, w, ops, Recompute(start));
    NextRecompute(p, w, s, start);
    ContinuesRun(p, w, ops + [Recompute(start)], Slicings(p, w, s.positions, span));
    UndisturbedOf(p, w, s, span);
  }

  lemma UndisturbedOf(p: Params, w: int, s: State, span: Span)
    requires Setting(p, w) && Sliceable(w, s.positions, span)
    ensures Undisturbed(p, w, s, span) == Continued(p, w, AfterSlice(p, w, s, span), Slicings(p, w, s.positions, span))
  {
    hide Continued, AfterSlice, Slicings, Floor, Near;
  }

  lemma NextRecompute(p: Params, w: int, s: State, start: Option<int>)
    requires w > 0 && p.cap.Some? && 0 < |s.positions|
    ensures Next(p, w, s, Recompute(start)) ==
      AfterSlice(p, w, s, OnDemandWindow(p, w, s.positions, start, s.rows.metrics.Keys))
  {
    hide AfterSlice, OnDemandWindow;
  }

  lemma NextContinue(p: Params, w: int, s: State)
    requires w > 0 && p.cap.Some? && 0 < |s.positions| && s.job.Some?
    ensures Next(p, w, s, Continue) == AfterSlice(p, w, s, s.job.value)
  {
    hide AfterSlice;
  }

  lemma NoMoreOps(ops: seq<Op>)
    ensures Continues(0) == [] && ops + Continues(0) == ops
  {
  }

  lemma OneMoreContinue(ops: seq<Op>, k: nat)
    ensures ops + Continues(k + 1) == ops + [Continue] + Continues(k)
  {
  }

  lemma SettingParts(p: Params, w: int)
    requires Setting(p, w)
    ensures p.Ok() && p.cap.Some? && 0 < w <= CHUNK_MIN
  {
  }

  lemma OnDemandSliceable(p: Params, w: int, F: seq<Fix>, start: Option<int>, stored: set<int>)
    requires 0 < |F| && Setting(p, w)
    ensures Sliceable(w, F, OnDemandWindow(p, w, F, start, stored))
    ensures GoodStart(p, w, F, OnDemandWindow(p, w, F, start, stored))
  {
    OnDemandStart(p, w, F, start, stored);
    hide OnDemandWindow, Floor, StartAt;
  }

  /** A slice leaves the rebuild under way. */
  lemma OneSlice(p: Params, w: int, s: State, span: Span)
    requires Setting(p, w) && Sliceable(w, s.positions, span) && SliceEnd(p, w, s.positions, span).Some?
    ensures var t := AfterSlice(p, w, s, span);
            var next := NextSpan(s.positions, SliceEnd(p, w, s.positions, span).value);
            && t.positions == s.positions && t.cursor == s.cursor && t.job == Some(next)
            && Sliceable(w, t.positions, next)
            && t.rows == Sliced(p, w, s.positions, s.rows, span, SliceEnd(p, w, s.positions, span).value)
            && Undisturbed(p, w, s, span) == Undisturbed(p, w, t, next)
            && Min(span.cyclesFrom, span.metricsFrom) < next.cyclesFrom <= s.positions[|s.positions|-1].ts
  {
    hide *;
    SettingParts(p, w);
    SliceParts(p, w, s, span);
    var t, next := AfterSlice(p, w, s, span), NextSpan(s.positions, SliceEnd(p, w, s.positions, span).value);
    NextContinue(p, w, t);
    UndisturbedOf(p, w, s, span);
    UndisturbedOf(p, w, t, next);
    OneMoreContinued(p, w, t, Slicings(p, w, s.positions, next));
  }

  lemma SliceParts(p: Params, w: int, s: State, span: Span)
    requires Setting(p, w) && Sliceable(w, s.positions, span) && SliceEnd(p, w, s.positions, span).Some?
    ensures var t := AfterSlice(p, w, s, span);
            var next := NextSpan(s.positions, SliceEnd(p, w, s.positions, span).value);
            && 0 < |s.positions| && t.positions == s.positions && t.cursor == s.cursor && t.job == Some(next)
            && Sliceable(w, t.positions, next)
            && t.rows == Sliced(p, w, s.positions, s.rows, span, SliceEnd(p, w, s.positions, span).value)
            && Slicings(p, w, s.positions, span) == 1 + Slicings(p, w, s.positions, next)
            && Min(span.cyclesFrom, span.metricsFrom) < next.cyclesFrom <= s.positions[|s.positions|-1].ts
  {
    hide Sliced, Finished, EntryKnownAt, Floor, Lookback;
    SliceAdvances(p, w, s.positions, span);
  }

  lemma OneMoreContinued(p: Params, w: int, s: State, n: nat)
    requires w > 0 && p.cap.Some?
    ensures Continued(p, w, s, n + 1) == Continued(p, w, Next(p, w, s, Continue), n)
  {
    hide Next;
  }

  lemma {:induction false} ContinuesRun(p: Params, w: int, ops: seq<Op>, n: nat)
    requires w > 0 && p.cap.Some?
    ensures AfterAll(p, w, ops + Continues(n)) == Continued(p, w, AfterAll(p, w, ops), n)
    decreases n
  {
    hide AfterAll, Next;
    if n > 0 {
      OneMoreOp(p, w, ops, Continue);
      OneMoreContinue(ops, n - 1);
      ContinuesRun(p, w, ops + [Continue], n - 1);
    } else {
      NoMoreOps(ops);
    }
  }

  lemma SliceableParts(w: int, F: seq<Fix>, span: Span)
    requires Sliceable(w, F, span)
    ensures 0 < |F| && w > 0
  {
    hide Floor, Near;
  }

  lemma NoSlice(p: Params, w: int, s: State, span: Span)
    requires Setting(p, w) && Sliceable(w, s.positions, span) && SliceEnd(p, w, s.positions, span).None?
    ensures Undisturbed(p, w, s, span) == AfterSlice(p, w, s, span) && Slicings(p, w, s.positions, span) == 0
  {
    hide AfterSlice, Floor, Near;
  }

  /** Its rows are those the loop over slices leaves, and only its last transaction moves the cursor. */
  lemma {:induction false} UndisturbedIs(p: Params, w: int, s: State, span: Span)
    requires Setting(p, w) && Sliceable(w, s.positions, span) && s.cursor.Some? && p.Ok()
    ensures var F := s.positions; var end := LastSpan(p, w, F, span); var cur := s.cursor.value;
            Undisturbed(p, w, s, span) ==
              State(F, Some(Advanced(p, w, cur, F, end, ResumeFrom(p, F, end.cyclesFrom, end.known), cur.dirty)),
                    RebuildRows(p, w, F, s.rows, span), None)
    decreases s.positions[|s.positions|-1].ts - Min(span.cyclesFrom, span.metricsFrom)
  {
    hide *;
    var F := s.positions;
    SettingParts(p, w);
    SliceableParts(w, F, span);
    if SliceEnd(p, w, F, span).Some? {
      var next := NextSpan(F, SliceEnd(p, w, F, span).value);
      OneSlice(p, w, s, span);
      RowsStep(p, w, F, s.rows, span);
      UndisturbedIs(p, w, AfterSlice(p, w, s, span), next);
    } else {
      NoSlice(p, w, s, span);
      LastSlice(p, w, s, span);
    }
  }

  lemma RowsStep(p: Params, w: int, F: seq<Fix>, rows: Rows, span: Span)
    requires Sliceable(w, F, span) && p.cap.Some? && p.Ok() && SliceEnd(p, w, F, span).Some?
    ensures var end := SliceEnd(p, w, F, span).value; var next := NextSpan(F, end);
            && Sliceable(w, F, next) && LastSpan(p, w, F, span) == LastSpan(p, w, F, next)
            && RebuildRows(p, w, F, rows, span) == RebuildRows(p, w, F, Sliced(p, w, F, rows, span, end), next)
            && Min(span.cyclesFrom, span.metricsFrom) < Min(next.cyclesFrom, next.metricsFrom) <= F[|F|-1].ts
  {
    hide Sliced, Finished, Floor;
    SliceAdvances(p, w, F, span);
  }

  lemma LastSlice(p: Params, w: int, s: State, span: Span)
    requires Setting(p, w) && Sliceable(w, s.positions, span) && s.cursor.Some? && p.Ok()
    requires SliceEnd(p, w, s.positions, span).None?
    ensures var F := s.positions; var cur := s.cursor.value;
            && LastSpan(p, w, F, span) == span && RebuildRows(p, w, F, s.rows, span) == Finished(p, w, F, s.rows, span)
            && AfterSlice(p, w, s, span) ==
               State(F, Some(Advanced(p, w, cur, F, span, ResumeFrom(p, F, span.cyclesFrom, span.known), cur.dirty)),
                     RebuildRows(p, w, F, s.rows, span), None)
  {
    hide Finished, Advanced, ResumeFrom, Floor, Near;
  }

  // ---- a rebuild of everything ----------------------------------------------------------------

  /** What is stored is about the track from its first fix on. */
  ghost predicate FromFirst(w: int, B: seq<Fix>, rows: Rows)
    requires 0 < |B| && w > 0
  {
    && (forall y :: y in rows.cycles ==> y.start >= B[0].ts)
    && forall b :: b in rows.metrics ==> b >= First(w, B) && Floor(b, w) == b
  }

  /** The rebuild leaves every row of `G` right, if `G` is calm where its slices stop reading. */
  ghost predicate LeavesRight(p: Params, w: int, s: State, G: seq<Fix>, start: Option<int>)
    requires Setting(p, w) && 0 < |G|
  {
    var span := OnDemandWindow(p, w, G, start, s.rows.metrics.Keys);
    && Sliceable(w, G, span)
    && var rows := Undisturbed(p, w, s.(positions := G), span).rows;
       CalmSlices(p, w, G, span) ==> Right(p, w, G, rows.cycles, rows.metrics)
  }

  /** The rows before a window at the first fix are right, unless it leaves out the first bucket and
      what is stored of that is not. */
  lemma {:induction false} FirstOnly(p: Params, w: int, G: seq<Fix>, rows: Rows, m: int)
    requires Sorted(G) && 0 < |G| && w > 0 && FromFirst(w, G, rows) && (m == First(w, G) || m == First(w, G) + w)
    ensures RowsBefore(p, w, G, rows.cycles, rows.metrics, G[0].ts, m)
       <==> m == First(w, G) || RightAt(p, w, G, rows.metrics, First(w, G))
  {
    hide Table, Floor, FullMetrics;
    forall y | y in Table(p, G) ensures y.start >= G[0].ts {
      OpensLater(p, G, y);
    }
    forall b | b < m && b != First(w, G) ensures b !in rows.metrics && b !in FullMetrics(p, w, G) {
      NotAStart(p, w, G, b);
    }
  }

  lemma OpensLater(p: Params, G: seq<Fix>, y: Cycle)
    requires Sorted(G) && y in Table(p, G)
    ensures 0 < |G| && y.start >= G[0].ts
  {
    hide CycleAt;
    var s :| 0 <= s < |G| && CycleAt(p, G, s) == Some(y);
    CycleStart(p, G, s);
  }

  /** Before the second bucket there is the first, and no other. */
  lemma NotAStart(p: Params, w: int, G: seq<Fix>, b: int)
    requires Sorted(G) && 0 < |G| && w > 0 && b < First(w, G) + w && b != First(w, G)
    ensures b >= First(w, G) ==> Floor(b, w) != b
    ensures b !in FullMetrics(p, w, G)
  {
    hide Content, Table, Ending;
    FloorAgain(G[0].ts, w);
    if b >= First(w, G) {
      BetweenBoundaries(w, First(w, G), b);
    }
    if b in Starts(G, w) {
      var i :| 0 <= i < |G| && b == Floor(G[i].ts, w);
      FloorAgain(G[i].ts, w);
      FloorMono(G[0].ts, G[i].ts, w);
    }
  }

  lemma BetweenBoundaries(w: int, a: int, b: int)
    requires w > 0 && Floor(a, w) == a && a < b < a + w
    ensures Floor(b, w) != b
  {
    if Floor(b, w) == b {
      FloorBefore(a, b, w);
    }
  }

  /** So such a rebuild leaves every row right unless that is the case. */
  lemma {:induction false} EverythingIs(p: Params, w: int, s: State, G: seq<Fix>, start: Option<int>)
    requires Setting(p, w) && Sorted(G) && 0 < |G| && s.cursor.Some? && FromFirst(w, G, s.rows)
    requires start.None? || start.value - Lookback(p) <= G[0].ts
    ensures LeavesRight(p, w, s, G, start) <==>
      var span := OnDemandWindow(p, w, G, start, s.rows.metrics.Keys);
      && Sliceable(w, G, span)
      && (CalmSlices(p, w, G, span) && First(w, G) < G[0].ts && First(w, G) in s.rows.metrics ==>
            RightAt(p, w, G, s.rows.metrics, First(w, G)))
  {
    var span := OnDemandWindow(p, w, G, start, s.rows.metrics.Keys);
    OnDemandSpan(p, w, G, start, s.rows.metrics.Keys);
    OnDemandSliceable(p, w, G, start, s.rows.metrics.Keys);
    SettingParts(p, w);
    UndisturbedIs(p, w, s.(positions := G), span);
    assert s.(positions := G).rows == s.rows;
    hide FromFirst, Setting, Sorted, RowsBefore, Right, RightAt, CalmSlices, RebuildRows, Undisturbed, Sliceable;
    hide OnDemandWindow, GoodStart, Floor, LastSpan, Advanced;
    FirstOnly(p, w, G, s.rows, span.metricsFrom);
    if CalmSlices(p, w, G, span) {
      RebuildRowsExact(p, w, G, s.rows, span);
    }
  }

  /** A stored row that is right for a track is right for an extension that has the same bucket. */
  lemma StoredThere(p: Params, w: int, B: seq<Fix>, G: seq<Fix>, rows: Rows)
    requires 0 < |B| && w > 0 && Extends(B, G) && RightAt(p, w, B, rows.metrics, First(w, B))
    ensures RightAt(p, w, G, rows.metrics, First(w, B)) <==> SameBucket(p, w, B, G, First(w, B))
  {
    FirstPresent(w, B);
    FirstShared(w, B, G);
    FirstPresent(w, G);
    FirstRow(p, w, B, First(w, B));
    FirstRow(p, w, G, First(w, B));
    hide FullMetrics, Floor, Starts;
  }

  /** The fixes that change the first bucket come soon: one transaction rebuilds what they make. */
  lemma {:induction false} SoonEnough(p: Params, w: int, B: seq<Fix>, span: Span)
    requires Setting(p, w) && p.minVisit <= p.cap.value && Sorted(B) && 0 < |B| && Filling(p, w, B)
    requires span.cyclesFrom == B[0].ts && span.metricsFrom >= First(w, B)
    ensures var G := Resumption.MoreInside(B, |B|, NextTs(B), p.minVisit); SliceEnd(p, w, G, span).None?
  {
    var G := Resumption.MoreInside(B, |B|, NextTs(B), p.minVisit);
    assert G[|G|-1].ts == NextTs(B) + p.minVisit;
    FillingSoon(p, w, B);
    hide Filling, Resumption.MoreInside;
  }

  lemma {:induction false} FillingSoon(p: Params, w: int, B: seq<Fix>)
    requires Sorted(B) && 0 < |B| && p.Ok() && w > 0 && Filling(p, w, B)
    ensures NextTs(B) < First(w, B) + w + p.minVisit + p.minExit
  {
    if !Reaching(w, B) {
      var s: nat, v: nat, d: nat :|
        MayEnd(p, B, s, v, d) && Floor(B[v].ts, w) == First(w, B) && CycleAt(p, B, s) == None;
      assert B[v].ts < First(w, B) + w && B[d].ts < B[v].ts;
      hide Floor;
      if Long(p, B, Load, v) {
        assert !Long(p, B, Dump, d) by {
          if Long(p, B, Dump, d) {
            AlreadyThere(p, B, s, v, d);
          }
        }
        OpenShort(p, B, Dump, d);
      } else {
        OpenShort(p, B, Load, v);
      }
    }
  }

  /** A bucket that the cursor has passed is final. */
  lemma PassedIsFinal(p: Params, w: int, B: seq<Fix>)
    requires Sorted(B) && 0 < |B| && p.Ok() && w > 0 && NextMetricsFrom(p, w, B[|B|-1].ts) > First(w, B)
    ensures !Filling(p, w, B)
  {
    var x := B[|B|-1].ts - p.minVisit - p.minExit;
    FloorAgain(B[0].ts, w);
    FloorBefore(First(w, B), x, w);
    hide Filling, Floor;
    if Filling(p, w, B) {
      FillingSoon(p, w, B);
    }
  }

  lemma AlreadyThere(p: Params, B: seq<Fix>, s: nat, v: nat, d: nat)
    requires Sorted(B) && 0 < |B| && MayEnd(p, B, s, v, d) && Long(p, B, Load, v) && Long(p, B, Dump, d)
    ensures CycleAt(p, B, s).Some?
  {
    LongStarts(p, B, Load, s);
    hide StartAt, VisitEnd, OpenAt, CycleAt, Long;
    NextLongIs(p, B, Load, s + 1, v);
    TakesOne(p, B, s, VisitEnd(p, B, Load, s), d, v);
  }

  /** A visit that is open and does not count yet is short. */
  lemma {:induction false} OpenShort(p: Params, B: seq<Fix>, k: Kind, j: nat)
    requires Sorted(B) && 0 < |B| && p.Ok() && j == OpenAt(p, B, k, |B|, NextTs(B)) && !Long(p, B, k, j)
    ensures NextTs(B) < B[j].ts + p.minVisit + p.minExit
  {
    NextStartIs(p, B, k, j + 1, |B|);
    hide StartAt, LastStart, NextStart;
  }

  /** A rebuild of everything leaves every row right, whatever follows the track, if and only if the
      first fix lies on a boundary, or its bucket is not stored, or that bucket is final. */
  lemma {:induction false} EverythingExact(p: Params, w: int, s: State, B: seq<Fix>, start: Option<int>)
    requires Setting(p, w) && p.minVisit <= p.cap.value && Sorted(B) && 0 < |B| && s.cursor.Some?
    requires FromFirst(w, B, s.rows) && (start.None? || start.value - Lookback(p) <= B[0].ts)
    requires First(w, B) in s.rows.metrics ==> RightAt(p, w, B, s.rows.metrics, First(w, B))
    ensures First(w, B) == B[0].ts || First(w, B) !in s.rows.metrics || !Filling(p, w, B)
       <==> forall G :: Extends(B, G) ==> 0 < |G| && LeavesRight(p, w, s, G, start)
  {
    var b := First(w, B);
    SettingParts(p, w);
    hide *;
    forall G | Extends(B, G)
      ensures 0 < |G| && G[0] == B[0]
      ensures b == B[0].ts || b !in s.rows.metrics || !Filling(p, w, B) ==> LeavesRight(p, w, s, G, start)
    {
      FirstShared(w, B, G);
      SameFirst(w, B, G, s.rows);
      EverythingIs(p, w, s, G, start);
      OnDemandSliceable(p, w, G, start, s.rows.metrics.Keys);
      if b in s.rows.metrics && !Filling(p, w, B) {
        SettledFirst(p, w, B, G);
        StoredThere(p, w, B, G, s.rows);
      }
    }
    if b != B[0].ts && b in s.rows.metrics && Filling(p, w, B) {
      NotEverything(p, w, s, B, start);
    }
  }

  lemma SameFirst(w: int, B: seq<Fix>, G: seq<Fix>, rows: Rows)
    requires 0 < |B| && w > 0 && Extends(B, G) && FromFirst(w, B, rows)
    ensures Sorted(G) && 0 < |G| && FromFirst(w, G, rows) && First(w, G) <= G[0].ts
  {
    hide Floor;
    ShareAt(B, G, |B|, 0);
  }

  lemma {:induction false} NotEverything(p: Params, w: int, s: State, B: seq<Fix>, start: Option<int>)
    requires Setting(p, w) && p.minVisit <= p.cap.value && Sorted(B) && 0 < |B| && s.cursor.Some?
    requires FromFirst(w, B, s.rows) && (start.None? || start.value - Lookback(p) <= B[0].ts)
    requires First(w, B) in s.rows.metrics && RightAt(p, w, B, s.rows.metrics, First(w, B))
    requires First(w, B) != B[0].ts && Filling(p, w, B)
    ensures var G := Resumption.MoreInside(B, |B|, NextTs(B), p.minVisit);
            Extends(B, G) && 0 < |G| && !LeavesRight(p, w, s, G, start)
  {
    hide *;
    SettingParts(p, w);
    var G := Resumption.MoreInside(B, |B|, NextTs(B), p.minVisit);
    UnsettledFirst(p, w, B);
    FirstShared(w, B, G);
    SameFirst(w, B, G, s.rows);
    StoredThere(p, w, B, G, s.rows);
    EverythingIs(p, w, s, G, start);
    OnDemandSpan(p, w, G, start, s.rows.metrics.Keys);
    OnDemandSliceable(p, w, G, start, s.rows.metrics.Keys);
    var span := OnDemandWindow(p, w, G, start, s.rows.metrics.Keys);
    FirstBounds(w, B);
    SoonEnough(p, w, B, span);
    NoSlices(p, w, G, span);
  }

  lemma FirstBounds(w: int, B: seq<Fix>)
    requires 0 < |B| && w > 0
    ensures First(w, B) == Floor(B[0].ts, w) <= B[0].ts
  {
    hide Floor;
  }

  lemma NoSlices(p: Params, w: int, G: seq<Fix>, span: Span)
    requires Sliceable(w, G, span) && p.cap.Some? && p.Ok() && SliceEnd(p, w, G, span).None?
    ensures CalmSlices(p, w, G, span)
  {
    hide Floor, Near;
  }
}

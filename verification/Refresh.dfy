/** The maintenance tick over one asset's stored state: positions, cursor, cycles and metrics.

    Whatever fixes are stored between ticks (in order, late, earliest of all, or repeated), the
    window a tick chooses gives the restart point a whole analysis would return; and the rows it
    leaves are those of a rebuild of the whole history exactly when the rows before the window were,
    as they are when the track last rebuilt can be trusted. */
module Refresh {
  import opened Wrappers
  import opened Track
  import opened Cycles
  import opened Analysis
  import opened Locality
  import opened Restart
  import opened Finality
  import opened Metrics
  import opened Recompute
  import opened Buckets

  /** The cursor row: where the cycles and the buckets restart, the newest fix a rebuild has
      read, and the earliest fix marked since as lying behind it. */
  datatype Cursor = Cursor(resume: Option<Resume>, metricsFrom: Option<int>, through: Option<int>, dirty: Option<int>)

  /** Where one rebuild starts.  With `openThrough` the cursor's open load visit was still in
      progress at that time. */
  datatype Span = Span(cyclesFrom: int, known: bool, metricsFrom: int, openThrough: Option<int>)

  function Min(a: int, b: int): int {
    if a < b then a else b
  }

  // ---- the cycles -----------------------------------------------------------------------------

  /** The stored cycles that a rebuild from `c` leaves in place and that end in what it reads. */
  function Kept(p: Params, stored: set<Cycle>, c: int, readFrom: int): set<Cycle>
    requires p.cap.Some?
  {
    set y | y in stored && y.start < c && y.start >= readFrom - p.cap.value && y.end >= readFrom
  }

  /** The rebuilt cycles that overlap none that is kept. */
  function Beyond(list: seq<Cycle>, kept: set<Cycle>): seq<Cycle> {
    if |list| == 0 then []
    else Beyond(list[..|list|-1], kept) +
         (if forall y | y in kept :: list[|list|-1].start >= y.end then [list[|list|-1]] else [])
  }

  lemma {:induction false} BeyondAll(list: seq<Cycle>, kept: set<Cycle>)
    requires forall z, y | z in list && y in kept :: z.start >= y.end
    ensures Beyond(list, kept) == list
  {
    if |list| > 0 {
      assert list == list[..|list|-1] + [list[|list|-1]];
      BeyondAll(list[..|list|-1], kept);
    }
  }

  /** Cycles opening before `c` are kept as stored, later ones are replaced. */
  function Replaced(stored: set<Cycle>, list: seq<Cycle>, c: int): set<Cycle> {
    (set y | y in stored && y.start < c) + (set z | z in list)
  }

  /** The cycles a window gives. */
  ghost function Found(p: Params, F: seq<Fix>, c: int, known: bool): seq<Cycle> {
    var W := F[LeadIndex(p, F, c)..];
    CycleList(p, W, known, Some(c), |W|)
  }

  /** The restart point it gives. */
  ghost function ResumeFrom(p: Params, F: seq<Fix>, c: int, known: bool): Resume
    requires 0 < |F|
  {
    ResumeOf(p, F[LeadIndex(p, F, c)..], known, Some(c))
  }

  /** Analyses the window from `c`: the fixes from there on and its lead-in. */
  method AnalyseFrom(p: Params, F: seq<Fix>, c: int, known: bool, kept: set<Cycle>)
    returns (list: seq<Cycle>, resume: Resume)
    requires Sorted(F) && 0 < |F| && p.Ok()
    ensures list == Beyond(Found(p, F, c, known), kept) && resume == ResumeFrom(p, F, c, known)
  {
    var W := F[LeadIndex(p, F, c)..];
    assert Sorted(W);
    var found, r := Analyse(p, W, known, Some(c));
    resume := r.value;
    list := Beyond(found, kept);
  }

  lemma LeadCut(F: seq<Fix>, lo: nat)
    requires lo <= |F|
    ensures Cut(F, lo, F[lo..])
  {
  }

  lemma LeadWindow(p: Params, F: seq<Fix>, c: int, known: bool)
    requires Sorted(F) && p.Ok() && Begins(p, F, c, known)
    ensures var lo := LeadIndex(p, F, c); Restart.Window(p, F, lo, c, F[lo..], known)
  {
    hide StartAt, FirstFrom;
    var lo := LeadIndex(p, F, c);
    LeadCut(F, lo);
    hide Cut, Sorted;
  }

  /** The stored cycles from before `c` are those of the whole track. */
  ghost predicate RightBefore(p: Params, G: seq<Fix>, stored: set<Cycle>, c: int) {
    forall y: Cycle :: y.start < c ==> (y in stored <==> y in Table(p, G))
  }

  /** A window gives the whole track's cycles from there on, and its restart point exactly when it
      reaches back to it. */
  lemma {:induction false} RebuildRight(p: Params, G: seq<Fix>, stored: set<Cycle>, c: int, known: bool, readFrom: int)
    requires Sorted(G) && p.Ok() && p.cap.Some? && Begins(p, G, c, known)
    ensures var found := Found(p, G, c, known);
            && (ResumeFrom(p, G, c, known) == FullResume(p, G) <==> Reaches(p, G, c))
            && (forall y :: y in found <==> y in Table(p, G) && y.start >= c)
            && (RightBefore(p, G, stored, c) ==>
                  && Beyond(found, Kept(p, stored, c, readFrom)) == found
                  && Replaced(stored, found, c) == Table(p, G))
  {
    hide Table, CycleList, FullResume, ResumeOf, StartAt, Reaches;
    var lo := LeadIndex(p, G, c);
    var W := G[lo..];
    LeadWindow(p, G, c, known);
    WindowResumeExact(p, G, lo, c, W, known);
    var found := CycleList(p, W, known, Some(c), |W|);
    forall y ensures y in found <==> y in Table(p, G) && y.start >= c {
      WindowCycles(p, G, lo, c, W, known, y);
    }
    if RightBefore(p, G, stored, c) {
      NoneOverlap(p, G, stored, c, found, readFrom);
    }
  }

  /** The program drops a rebuilt cycle that overlaps a kept one: none does. */
  lemma {:induction false} NoneOverlap(p: Params, G: seq<Fix>, stored: set<Cycle>, c: int, found: seq<Cycle>,
                                       readFrom: int)
    requires Sorted(G) && p.cap.Some? && RightBefore(p, G, stored, c)
    requires forall y :: y in found ==> y in Table(p, G) && y.start >= c
    ensures Beyond(found, Kept(p, stored, c, readFrom)) == found
  {
    hide Table;
    var kept := Kept(p, stored, c, readFrom);
    forall z, y | z in found && y in kept ensures z.start >= y.end {
      CyclesApart(p, G, y, z);
    }
    BeyondAll(found, kept);
  }

  // ---- where a tick starts --------------------------------------------------------------------

  /** The first bucket a rebuild that starts a track rewrites: not one computed before that the
      fixes ahead of `start` may have been deleted from. */
  function MetricsStart(w: int, start: int, known: bool, stored: set<int>): int
    requires w > 0
  {
    var m := Floor(start, w);
    if known && m < start && m in stored then m + w else m
  }

  /** The tick's window, or None when nothing has changed. */
  function ChooseWindow(p: Params, w: int, cur: Cursor, F: seq<Fix>, stored: set<int>): Option<Span>
    requires w > 0
  {
    if cur.resume.None? || cur.metricsFrom.None? then
      if cur.dirty.None? && |F| == 0 then None
      else
        var anchor := if cur.dirty.Some? then cur.dirty.value else F[|F|-1].ts;
        var (start, known) := StartAtTime(F, anchor - Lookback(p));
        Some(Span(start, known, MetricsStart(w, start, known, stored), None))
    else if cur.dirty.None? && !(|F| > 0 && (cur.through.Some? ==> F[|F|-1].ts > cur.through.value)) then None
    else
      var r := cur.resume.value;
      match cur.dirty
      case None =>
        Some(Span(r.ts, r.entryKnown, cur.metricsFrom.value, if r.entryKnown && r.inside then cur.through else None))
      case Some(d) =>
        var (start, known) := if d < r.ts + p.minVisit then StartAtTime(F, d - Lookback(p)) else (r.ts, r.entryKnown);
        Some(Span(start, known, Min(cur.metricsFrom.value, Floor(d, w) - w), None))
  }

  /** The fixes a rebuild reads, when every one after the cursor's newest lies in a load zone,
      within the cap: the open visit simply continued. */
  predicate StillInOpenVisit(p: Params, R: seq<Fix>, span: Span)
    requires p.cap.Some?
  {
    && span.openThrough.Some? && |R| > 0
    && R[|R|-1].ts - span.cyclesFrom < p.cap.value
    && forall i :: 0 <= i < |R| && R[i].ts > span.openThrough.value ==> R[i].In(Load)
  }

  // ---- what the cursor knows ------------------------------------------------------------------

  /** The cursor is that of a rebuild of the track `B`, and marks every fix stored since that does
      not follow it.  `F` is what is stored now. */
  ghost predicate Knows(p: Params, w: int, cur: Cursor, B: seq<Fix>, F: seq<Fix>)
    requires w > 0
  {
    && Sorted(F) && 0 < |F| && Sorted(B)
    && match cur.resume
       case None => B == [] && cur.metricsFrom == None && cur.through == None && cur.dirty == Some(F[0].ts)
       case Some(r) =>
         && 0 < |B| && r == FullResume(p, B)
         && var last := B[|B|-1].ts;
            && cur.through == Some(last) && cur.metricsFrom == Some(NextMetricsFrom(p, w, last))
            && match cur.dirty
               case None => GrewFrom(B, F, last + 1)
               case Some(d) => d <= last && GrewFrom(B, F, d)
  }

  /** What is stored is what a rebuild of the whole of `B` would store. */
  ghost predicate Right(p: Params, w: int, B: seq<Fix>, cycles: set<Cycle>, metrics: map<int, Bucket>)
    requires w > 0
  {
    cycles == Table(p, B) && metrics == FullMetrics(p, w, B)
  }

  /** The mark is too early for the cursor's load entry to be used. */
  predicate TooEarly(p: Params, cur: Cursor) {
    cur.resume.Some? && cur.dirty.Some? && cur.dirty.value < cur.resume.value.ts + p.minVisit
  }

  /** What may be kept of the rows for `B` can be told from `B`: it was firm, and, when a late fix
      is marked, calm there. */
  ghost predicate Trusted(p: Params, cur: Cursor, B: seq<Fix>) {
    0 < |B| ==>
      match cur.dirty
      case None => Firm(p, B)
      case Some(d) => CalmBy(p, B, d, if TooEarly(p, cur) then p.minVisit + p.minExit else p.minVisit)
  }

  /** A quiet track can be trusted whatever the mark. */
  lemma QuietTrusted(p: Params, cur: Cursor, B: seq<Fix>)
    requires Sorted(B) && p.Ok() && Quiet(p, B)
    ensures Trusted(p, cur, B)
  {
    hide CalmBy, Firm;
    if 0 < |B| {
      match cur.dirty
      case None => QuietFirm(p, B);
      case Some(d) => CalmByLess(p, B, d, p.minVisit, p.minVisit + p.minExit);
    }
  }

  /** The rows a tick leaves alone: cycles opened before this, ... */
  function SafeFrom(p: Params, cur: Cursor): int
    requires cur.resume.Some?
  {
    var r := cur.resume.value;
    if TooEarly(p, cur) then cur.dirty.value - Lookback(p) else r.ts
  }

  /** ... and buckets before this. */
  function SafeBucket(w: int, cur: Cursor): int
    requires cur.metricsFrom.Some? && w > 0
  {
    if cur.dirty.Some? then Min(cur.metricsFrom.value, Floor(cur.dirty.value, w) - w) else cur.metricsFrom.value
  }

  /** Nothing stored since the last rebuild can have changed them. */
  lemma {:induction false} SafeSame(p: Params, w: int, cur: Cursor, B: seq<Fix>, F: seq<Fix>)
    requires w >= p.minVisit + p.minExit && p.Ok() && p.cap.Some?
    requires Knows(p, w, cur, B, F) && cur.resume.Some? && Trusted(p, cur, B)
    ensures SameBefore(p, B, F, SafeFrom(p, cur))
    ensures forall b :: b < SafeBucket(w, cur) ==> SameBucket(p, w, B, F, b)
  {
    hide Table, Floor, FullResume, FullMetrics, Firm, CalmBy, StartAt, SameBucket, SameBefore;
    if cur.dirty.None? {
      CursorWindow(p, B, F);
      GrewAfter(B, F);
      forall b | b < SafeBucket(w, cur) ensures SameBucket(p, w, B, F, b) {
        ExtendBuckets(p, w, B, F, b);
      }
    } else {
      var d := cur.dirty.value;
      if d < cur.resume.value.ts + p.minVisit {
        LookbackWindow(p, B, F, d);
      } else {
        CursorLateWindow(p, B, F, d);
      }
      GrewLate(B, F, d);
      CalmByLess(p, B, d, p.minVisit, p.minVisit + p.minExit);
      forall b | b < SafeBucket(w, cur) ensures SameBucket(p, w, B, F, b) {
        LateBuckets(p, w, B, F, d, b);
      }
    }
  }

  /** The window starts where the rows left alone end, or at the track's first fix. */
  ghost predicate StartsSafe(p: Params, w: int, cur: Cursor, F: seq<Fix>, span: Span)
    requires w > 0 && (cur.resume.Some? ==> cur.metricsFrom.Some?)
  {
    && GoodWindow(p, F, span.cyclesFrom, span.known) && Floor(span.metricsFrom, w) == span.metricsFrom
    && (cur.resume.Some? ==>
          && span.metricsFrom == SafeBucket(w, cur)
          && (span.cyclesFrom == SafeFrom(p, cur) || span.cyclesFrom == F[0].ts))
  }

  lemma FirstWindow(p: Params, w: int, cur: Cursor, F: seq<Fix>, stored: set<int>)
    requires w > 0 && p.Ok() && p.cap.Some? && Knows(p, w, cur, [], F) && cur.resume.None?
    ensures ChooseWindow(p, w, cur, F, stored) ==
      Some(Span(F[0].ts, true, MetricsStart(w, F[0].ts, true, stored), None))
    ensures StartsSafe(p, w, cur, F, Span(F[0].ts, true, MetricsStart(w, F[0].ts, true, stored), None))
  {
    RestartAtLeastFirst(p, F);
    FloorAgain(F[0].ts, w);
    FloorNext(Floor(F[0].ts, w), w);
    hide Floor, FullResume, StartAt;
  }

  lemma CursorSpan(p: Params, w: int, cur: Cursor, B: seq<Fix>, F: seq<Fix>, stored: set<int>)
    requires w > 0 && p.Ok() && Knows(p, w, cur, B, F) && cur.resume.Some? && cur.dirty.None?
    ensures var span := ChooseWindow(p, w, cur, F, stored); span.Some? ==> StartsSafe(p, w, cur, F, span.value)
  {
    hide Table, Floor, FullResume, FullMetrics, Firm, StartAt;
    CursorWindow(p, B, F);
    FloorAgain(B[|B|-1].ts - p.minVisit - p.minExit, w);
  }

  lemma DirtySpan(p: Params, w: int, cur: Cursor, B: seq<Fix>, F: seq<Fix>, stored: set<int>)
    requires w > 0 && p.Ok() && p.cap.Some?
    requires Knows(p, w, cur, B, F) && cur.resume.Some? && cur.dirty.Some?
    ensures var span := ChooseWindow(p, w, cur, F, stored); span.Some? && StartsSafe(p, w, cur, F, span.value)
  {
    hide Table, Floor, FullResume, FullMetrics, CalmBy, StartAt;
    var d := cur.dirty.value;
    if d < cur.resume.value.ts + p.minVisit {
      LookbackWindow(p, B, F, d);
    } else {
      CursorLateWindow(p, B, F, d);
    }
    hide Lookback, GoodWindow, SameBefore;
    FloorAgain(B[|B|-1].ts - p.minVisit - p.minExit, w);
    FloorPrevious(d, w);
  }

  /** Every window a tick chooses gives the track's restart point, and starts where the rows it
      leaves alone end. */
  lemma WindowGood(p: Params, w: int, cur: Cursor, B: seq<Fix>, F: seq<Fix>, stored: set<int>)
    requires w > 0 && p.Ok() && p.cap.Some? && Knows(p, w, cur, B, F)
    ensures var span := ChooseWindow(p, w, cur, F, stored); span.Some? ==> StartsSafe(p, w, cur, F, span.value)
  {
    hide ChooseWindow, StartsSafe;
    if cur.resume.None? {
      FirstWindow(p, w, cur, F, stored);
    } else if cur.dirty.None? {
      CursorSpan(p, w, cur, B, F, stored);
    } else {
      DirtySpan(p, w, cur, B, F, stored);
    }
  }

  /** A tick passes an asset by only when no fix was stored since the last. */
  lemma {:induction false} PassedBy(p: Params, w: int, cur: Cursor, B: seq<Fix>, F: seq<Fix>, stored: set<int>)
    requires w > 0 && Knows(p, w, cur, B, F) && ChooseWindow(p, w, cur, F, stored) == None
    ensures F == B && cur.resume.Some? && cur.dirty == None
  {
    hide FullResume;
    var last := B[|B|-1].ts;
    GrewAfter(B, F);
    ShareAt(B, F, |B|, |B| - 1);
    assert |F| <= |B|;
    assert F == F[..|B|] == B[..|B|] == B;
  }

  // ---- what a tick writes ---------------------------------------------------------------------

  /** The stored cycles that opened before `c` and end in bucket `b` are those of the track. */
  ghost predicate EndingRight(p: Params, w: int, F: seq<Fix>, stored: set<Cycle>, c: int, b: int)
    requires w > 0
  {
    forall y: Cycle :: y.start < c && Floor(y.end, w) == b ==> (y in stored <==> y in Table(p, F))
  }

  /** So are the rebuilt ones that opened from `c` on. */
  ghost predicate ListRight(p: Params, w: int, F: seq<Fix>, list: seq<Cycle>, c: int, b: int)
    requires w > 0
  {
    forall y: Cycle :: Floor(y.end, w) == b ==> (y in list <==> y in Table(p, F) && y.start >= c)
  }

  /** The rebuilt and the kept cycles that end in a bucket are all that do. */
  lemma {:induction false} LoadsRight(p: Params, w: int, F: seq<Fix>, c: int, list: seq<Cycle>, stored: set<Cycle>,
                                      readFrom: int, b: int)
    requires Sorted(F) && w > 0 && p.cap.Some? && readFrom <= b && Rising(list)
    requires EndingRight(p, w, F, stored, c, b) && ListRight(p, w, F, list, c, b)
    ensures EndsIn(list, w, b) + |Ending(Kept(p, stored, c, readFrom), w, b)| == |Ending(Table(p, F), w, b)|
  {
    EachOnce(list, w, b);
    hide Table, EndsIn, Sorted, Floor;
    var kept := Kept(p, stored, c, readFrom);
    var A, K, T := Ending(Members(list), w, b), Ending(kept, w, b), Ending(Table(p, F), w, b);
    forall y | y in T ensures y in A + K {
      CycleLength(p, F, y);
      BucketSpan(y.end, w);
    }
    assert A !! K;
    assert A + K == T;
  }

  /** A bucket rewritten from the window on is right. */
  lemma {:induction false} BucketRight(p: Params, w: int, F: seq<Fix>, metrics: map<int, Bucket>, m: int, c: int,
                                       list: seq<Cycle>, stored: set<Cycle>, readFrom: int, b: int)
    requires w > 0 && Sorted(F) && p.cap.Some? && Floor(m, w) == m && Rising(list) && readFrom <= m <= b
    requires EndingRight(p, w, F, stored, c, b) && ListRight(p, w, F, list, c, b)
    ensures RightAt(p, w, F, Rewritten(p, w, metrics, F, m, list, Kept(p, stored, c, readFrom)), b)
  {
    hide Table, Content, Floor, Starts, FirstFrom, Kept, EndsIn, Sorted, EndingRight, ListRight;
    RowsFrom(p, w, F, m, b);
    LoadsRight(p, w, F, c, list, stored, readFrom, b);
  }

  /** A bucket before the window is as it was. */
  lemma BucketKept(p: Params, w: int, F: seq<Fix>, metrics: map<int, Bucket>, m: int, list: seq<Cycle>,
                   kept: set<Cycle>, b: int)
    requires w > 0 && Sorted(F) && Floor(m, w) == m && b < m
    ensures var next := Rewritten(p, w, metrics, F, m, list, kept);
            (b in next <==> b in metrics) && (b in next ==> next[b] == metrics[b])
  {
    hide Content, Floor, Starts, FirstFrom, EndsIn, Sorted;
    RowsFrom(p, w, F, m, b);
  }

  lemma SameMap(p: Params, w: int, F: seq<Fix>, next: map<int, Bucket>)
    requires w > 0 && forall b :: RightAt(p, w, F, next, b)
    ensures next == FullMetrics(p, w, F)
  {
    hide FullMetrics;
    forall b
      ensures b in next <==> b in FullMetrics(p, w, F)
      ensures b in next ==> next[b] == FullMetrics(p, w, F)[b]
    {
      assert RightAt(p, w, F, next, b);
    }
  }

  /** The rows before a window are right: cycles opened before `c` and buckets before `m`. */
  ghost predicate RowsBefore(p: Params, w: int, F: seq<Fix>, cycles: set<Cycle>, metrics: map<int, Bucket>, c: int,
                             m: int)
    requires w > 0
  {
    RightBefore(p, F, cycles, c) && forall b :: b < m ==> RightAt(p, w, F, metrics, b)
  }

  /** Rewritten buckets are all right if and only if those before the window were, when the cycles
      counted in the others are right. */
  lemma {:induction false} BucketsExact(p: Params, w: int, F: seq<Fix>, metrics: map<int, Bucket>, c: int, m: int,
                                        list: seq<Cycle>, stored: set<Cycle>, readFrom: int)
    requires w > 0 && Sorted(F) && p.cap.Some? && Floor(m, w) == m && Rising(list) && readFrom <= m
    requires RightBefore(p, F, stored, c) && forall y :: y in list <==> y in Table(p, F) && y.start >= c
    ensures Rewritten(p, w, metrics, F, m, list, Kept(p, stored, c, readFrom)) == FullMetrics(p, w, F)
       <==> forall b :: b < m ==> RightAt(p, w, F, metrics, b)
  {
    hide Table, FullMetrics, Rewritten, Floor, Kept, Rising, Sorted;
    var next := Rewritten(p, w, metrics, F, m, list, Kept(p, stored, c, readFrom));
    forall b ensures RightAt(p, w, F, next, b) <==> b >= m || RightAt(p, w, F, metrics, b) {
      if b >= m {
        BucketRight(p, w, F, metrics, m, c, list, stored, readFrom, b);
      } else {
        BucketKept(p, w, F, metrics, m, list, Kept(p, stored, c, readFrom), b);
      }
    }
    if forall b :: b < m ==> RightAt(p, w, F, metrics, b) {
      SameMap(p, w, F, next);
    }
    if next == FullMetrics(p, w, F) {
      forall b | b < m ensures RightAt(p, w, F, metrics, b) {
        assert RightAt(p, w, F, next, b);
      }
    }
  }

  /** What a rebuild from `c` and `m` to the newest fix leaves is right if and only if the rows
      before them were. */
  lemma {:induction false} RebuildExact(p: Params, w: int, F: seq<Fix>, cycles: set<Cycle>, metrics: map<int, Bucket>,
                                        c: int, m: int, known: bool, readFrom: int)
    requires w > 0 && Sorted(F) && p.Ok() && p.cap.Some? && Begins(p, F, c, known) && Floor(m, w) == m && readFrom <= m
    ensures var kept := Kept(p, cycles, c, readFrom); var list := Beyond(Found(p, F, c, known), kept);
            Right(p, w, F, Replaced(cycles, list, c), Rewritten(p, w, metrics, F, m, list, kept))
            <==> RowsBefore(p, w, F, cycles, metrics, c, m)
  {
    RebuildRight(p, F, cycles, c, known, readFrom);
    CyclesRise(p, F[LeadIndex(p, F, c)..], known, Some(c), |F[LeadIndex(p, F, c)..]|) by {
      CutSorted(F, LeadIndex(p, F, c));
    }
    hide Table, CycleList, FullResume, ResumeOf, Begins, FullMetrics, Rewritten, Floor, Kept, Rising, Sorted, RightAt;
    var found := Found(p, F, c, known);
    var list := Beyond(found, Kept(p, cycles, c, readFrom));
    BeyondWithin(found, Kept(p, cycles, c, readFrom));
    hide LeadIndex, Beyond, Found;
    if RightBefore(p, F, cycles, c) {
      BucketsExact(p, w, F, metrics, c, m, list, cycles, readFrom);
    } else {
      var y: Cycle :| y.start < c && !(y in cycles <==> y in Table(p, F));
      assert y in Replaced(cycles, list, c) <==> y in cycles;
    }
  }

  lemma CutSorted(F: seq<Fix>, lo: nat)
    requires Sorted(F) && lo <= |F|
    ensures Sorted(F[lo..])
  {
  }

  lemma {:induction false} BeyondWithin(list: seq<Cycle>, kept: set<Cycle>)
    ensures forall y :: y in Beyond(list, kept) <==> y in list && forall k :: k in kept ==> y.start >= k.end
    ensures Rising(list) ==> Rising(Beyond(list, kept))
  {
    if |list| > 0 {
      var init := list[..|list|-1];
      BeyondWithin(init, kept);
      assert list == init + [list[|list|-1]];
      if Rising(list) {
        forall y | y in Beyond(init, kept) ensures y.start < list[|list|-1].start {
          assert y in init;
        }
      }
    }
  }

  /** No cycle opens at or after a load visit still under way. */
  lemma {:induction false} OpenStart(p: Params, B: seq<Fix>, F: seq<Fix>, y: Cycle)
    requires Sorted(B) && Sorted(F) && 0 < |B| && Share(B, F, |B|)
    requires FullResume(p, B).entryKnown && FullResume(p, B).inside && FullResume(p, F) == FullResume(p, B)
    requires y in Table(p, F)
    ensures y.start < FullResume(p, F).ts
  {
    hide Table, StartAt;
    NoneAfterLast(p, F, Anchor(p, F, true, None), y);
  }
}

/** One asset's stored rows under any interleaving of stored fixes, maintenance ticks and on-demand
    rebuilds, each slice of which is a transaction of its own. */
module Runs {
  import opened Wrappers
  import opened Track
  import opened Cycles
  import opened Analysis
  import opened Locality
  import opened Restart
  import opened Finality
  import opened Metrics
  import opened Recompute
  import opened Buckets
  import opened Refresh
  import opened Stored
  import opened Slices

  /** The asset's positions, cursor and derived rows, and where the on-demand rebuild under way, if
      there is one, continues. */
  datatype State = State(positions: seq<Fix>, cursor: Option<Cursor>, rows: Rows, job: Option<Span>)

  const NOTHING := Rows({}, map[])

  const START := State([], None, NOTHING, None)

  /** A fix arrives; a tick; an on-demand rebuild begins with its first slice; its next slice. */
  datatype Op = Store(f: Fix) | Tick | Recompute(start: Option<int>) | Continue

  /** What holds of the program's parameters: a bucket is 300 s long. */
  predicate Setting(p: Params, w: int) {
    p.Ok() && p.cap.Some? && p.minVisit + p.minExit <= w <= Lookback(p) && w <= CHUNK_MIN
  }

  function AfterStore(s: State, f: Fix): State {
    if IsNew(s.positions, f)
    then s.(positions := Inserted(s.positions, f), cursor := Some(Marked(s.cursor, f.ts)))
    else s
  }

  /** The fixes a rebuild reads. */
  function ReadFrom(F: seq<Fix>, span: Span): seq<Fix> {
    F[FirstFrom(F, span.metricsFrom)..]
  }

  /** The rows and the restart point after a rebuild to the newest fix, ... */
  ghost function Rebuilt(p: Params, w: int, s: State, span: Span): (Rows, Resume)
    requires w > 0 && p.cap.Some? && 0 < |s.positions|
  {
    var F, c, m := s.positions, span.cyclesFrom, span.metricsFrom;
    if StillInOpenVisit(p, ReadFrom(F, span), span) then
      (Rows(s.rows.cycles, Rewritten(p, w, s.rows.metrics, F, m, [], Kept(p, s.rows.cycles, c, m))),
       Resume(c, true, true))
    else (Finished(p, w, F, s.rows, span), ResumeFrom(p, F, c, span.known))
  }

  /** ... and the cursor, which moves only if there were fixes to read. */
  function Advanced(p: Params, w: int, cur: Cursor, F: seq<Fix>, span: Span, resume: Resume, dirty: Option<int>): Cursor
    requires w > 0 && 0 < |F|
  {
    var last := F[|F|-1].ts;
    if last >= Min(span.metricsFrom, span.cyclesFrom - p.minExit)
    then Cursor(Some(resume), Some(NextMetricsFrom(p, w, last)), Some(last), dirty)
    else cur.(dirty := dirty)
  }

  /** A tick does nothing for an asset with nothing new. */
  predicate PassedOver(p: Params, w: int, s: State)
    requires w > 0
  {
    s.cursor.None? || |s.positions| == 0 || ChooseWindow(p, w, s.cursor.value, s.positions, s.rows.metrics.Keys).None?
  }

  ghost function AfterTick(p: Params, w: int, s: State): State
    requires w > 0 && p.cap.Some?
  {
    if PassedOver(p, w, s) then s
    else
      var span := ChooseWindow(p, w, s.cursor.value, s.positions, s.rows.metrics.Keys).value;
      var (rows, resume) := Rebuilt(p, w, s, span);
      s.(rows := rows, cursor := Some(Advanced(p, w, s.cursor.value, s.positions, span, resume, None)))
  }

  const BLANK := Cursor(None, None, None, None)

  /** One transaction of an on-demand rebuild: a slice, or the last rebuild, which moves the cursor but
      leaves a mark standing. */
  ghost function AfterSlice(p: Params, w: int, s: State, span: Span): State
    requires w > 0 && p.cap.Some? && 0 < |s.positions|
  {
    var F := s.positions;
    var cur := if s.cursor.Some? then s.cursor.value else BLANK;
    match SliceEnd(p, w, F, span)
    case Some(end) =>
      s.(rows := Sliced(p, w, F, s.rows, span, end), job := Some(Span(end, EntryKnownAt(F, end), end, None)))
    case None =>
      s.(rows := Finished(p, w, F, s.rows, span), job := None,
         cursor := Some(Advanced(p, w, cur, F, span, ResumeFrom(p, F, span.cyclesFrom, span.known), cur.dirty)))
  }

  ghost function Next(p: Params, w: int, s: State, op: Op): State
    requires w > 0 && p.cap.Some?
  {
    match op
    case Store(f) => AfterStore(s, f)
    case Tick => AfterTick(p, w, s)
    case Recompute(start) =>
      if |s.positions| == 0 then s
      else AfterSlice(p, w, s, OnDemandWindow(p, w, s.positions, start, s.rows.metrics.Keys))
    case Continue =>
      if |s.positions| == 0 || s.job.None? then s else AfterSlice(p, w, s, s.job.value)
  }

  ghost function AfterAll(p: Params, w: int, ops: seq<Op>): State
    requires w > 0 && p.cap.Some?
  {
    if |ops| == 0 then START else Next(p, w, AfterAll(p, w, ops[..|ops|-1]), ops[|ops|-1])
  }

  // ---- what a run needs -----------------------------------------------------------------------

  /** What a run's rows rest on: the track the cursor was last moved for; the one the rebuild under
      way last wrote rows for; and whether a fix may have changed rows that rebuild has passed: one
      stored behind what it had written, or marked before it began, nearer than its window looks
      back. */
  datatype Notes = Notes(base: seq<Fix>, written: seq<Fix>, missed: bool)

  /** A fix so far past what a rebuild has written that it can change none of it. */
  predicate Ahead(p: Params, span: Span, f: Fix) {
    f.ts >= span.cyclesFrom + Lookback(p)
  }

  /** The rows a cursor vouches for, at least: those opened before this. */
  function Vouched(p: Params, cur: Cursor, F: seq<Fix>): int
    requires 0 < |F|
  {
    if cur.resume.Some? && SafeFrom(p, cur) > F[0].ts then SafeFrom(p, cur) else F[0].ts
  }

  /** Whether an on-demand rebuild from `span` passes by rows a marked fix can have changed. */
  predicate PassesMark(p: Params, w: int, s: State, span: Span)
    requires 0 < |s.positions| && s.cursor.Some? && w > 0
  {
    || span.cyclesFrom > Vouched(p, s.cursor.value, s.positions)
    || (s.cursor.value.resume.None? && span.metricsFrom > Floor(s.positions[0].ts, w))
  }

  ghost function NextNotes(p: Params, w: int, s: State, n: Notes, op: Op): Notes
    requires w > 0 && p.cap.Some?
  {
    var F := s.positions;
    match op
    case Store(f) => n.(missed := n.missed || (s.job.Some? && IsNew(F, f) && !Ahead(p, s.job.value, f)))
    case Tick => if PassedOver(p, w, s) then n else Notes(F, F, false)
    case Recompute(start) =>
      if |F| == 0 || s.cursor.None? then n
      else
        var span := OnDemandWindow(p, w, F, start, s.rows.metrics.Keys);
        AfterWrite(p, w, s, n.(missed := PassesMark(p, w, s, span)), span)
    case Continue => if |F| == 0 || s.job.None? then n else AfterWrite(p, w, s, n, s.job.value)
  }

  ghost function AfterWrite(p: Params, w: int, s: State, n: Notes, span: Span): Notes
    requires w > 0 && 0 < |s.positions|
  {
    if SliceEnd(p, w, s.positions, span).Some? then n.(written := s.positions)
      else Notes(s.positions, s.positions, false)
  }

  ghost function NotesOf(p: Params, w: int, ops: seq<Op>): Notes
    requires w > 0 && p.cap.Some?
  {
    if |ops| == 0 then Notes([], [], false)
    else
      var init := ops[..|ops|-1];
      NextNotes(p, w, AfterAll(p, w, init), NotesOf(p, w, init), ops[|ops|-1])
  }

  /** An on-demand rebuild starts no later than the cursor, and leaves out no bucket that the cursor
      has not passed. */
  predicate NoLater(w: int, s: State, span: Span)
    requires 0 < |s.positions| && w > 0
  {
    match s.cursor
    case None => false
    case Some(cur) =>
      if cur.resume.None? then span.cyclesFrom <= s.positions[|s.positions|-1].ts
      else
        && span.cyclesFrom <= cur.resume.value.ts && cur.metricsFrom.Some?
        && (span.metricsFrom <= cur.metricsFrom.value || span.metricsFrom <= Floor(s.positions[0].ts, w))
  }

  /** The last rebuild of an on-demand one finds the restart point, and if it passed by what a fix
      can have changed, leaves a mark from which the next tick goes back to it. */
  ghost predicate EndsWell(p: Params, w: int, s: State, missed: bool, span: Span)
    requires 0 < |s.positions| && w > 0
  {
    SliceEnd(p, w, s.positions, span).None? ==>
      && Reaches(p, s.positions, span.cyclesFrom)
      && (missed ==> s.cursor.Some? && s.cursor.value.dirty.Some?
                     && s.cursor.value.dirty.value < FullResume(p, s.positions).ts + p.minVisit)
  }

  /** The first tick of all does not leave the track's first bucket to slices that a fix stored
      since may have made wrong. */
  predicate FirstWhole(w: int, s: State, n: Notes)
    requires w > 0
  {
    s.cursor.Some? && s.cursor.value.resume.None? && 0 < |s.positions| && n.missed ==>
      MetricsStart(w, s.positions[0].ts, true, s.rows.metrics.Keys) == Floor(s.positions[0].ts, w)
  }

  /** What the rows rest on can be told from the tracks they were made of. */
  ghost predicate Reliable(p: Params, s: State, n: Notes) {
    && (s.cursor.Some? ==> Trusted(p, s.cursor.value, n.base))
    && (s.job.Some? ==> CalmPast(p, n.written, s.job.value.cyclesFrom))
  }

  /** So can what a slice from `span`, if that is what comes next, writes. */
  ghost predicate CalmSlice(p: Params, w: int, F: seq<Fix>, span: Span)
    requires 0 < |F| && w > 0
  {
    var end := SliceEnd(p, w, F, span);
    end.Some? ==> CalmPast(p, F, end.value)
  }

  /** What each operation needs of the moment it comes at. */
  ghost predicate Careful(p: Params, w: int, s: State, n: Notes, op: Op)
    requires w > 0 && p.cap.Some?
  {
    var F := s.positions;
    match op
    case Store(_) => true
    case Tick => Reliable(p, s, n) && FirstWhole(w, s, n)
    case Recompute(start) =>
      0 < |F| ==>
        var span := OnDemandWindow(p, w, F, start, s.rows.metrics.Keys);
        && Reliable(p, s, n) && CalmSlice(p, w, F, span) && NoLater(w, s, span)
        && EndsWell(p, w, s, PassesMark(p, w, s, span), span)
    case Continue => 0 < |F| && s.job.Some? ==>
      Reliable(p, s, n) && CalmSlice(p, w, F, s.job.value) && EndsWell(p, w, s, n.missed, s.job.value)
  }

  /** Every operation comes at such a moment. */
  ghost predicate Sound(p: Params, w: int, ops: seq<Op>)
    requires w > 0 && p.cap.Some?
  {
    |ops| > 0 ==>
      var init := ops[..|ops|-1];
      var s, n := AfterAll(p, w, init), NotesOf(p, w, init);
      Sound(p, w, init) && Careful(p, w, s, n, ops[|ops|-1])
  }
}

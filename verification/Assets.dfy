/** One asset's rows as the program keeps them: fields that storing a fix, a tick and each
    transaction of an on-demand rebuild change in place. */
module Assets {
  import opened Wrappers
  import opened Track
  import opened Cycles
  import opened Analysis
  import opened Restart
  import opened Metrics
  import opened Recompute
  import opened Buckets
  import opened Refresh
  import opened Stored
  import opened Slices
  import opened Runs
  import opened Standing
  import opened Interleavings

  class Asset {
    const p: Params
    const w: int
    var positions: seq<Fix>
    var cursor: Option<Cursor>
    var cycles: set<Cycle>
    var metrics: map<int, Bucket>
    var job: Option<Span>

    ghost predicate Valid()
      reads this
    {
      && Setting(p, w) && Sorted(positions) && (cursor.None? <==> positions == [])
      && (cursor.Some? && cursor.value.metricsFrom.Some? ==> Aligned(w, cursor.value.metricsFrom.value))
      && (job.Some? ==> Aligned(w, job.value.metricsFrom))
    }

    ghost function State(): State
      reads this
    {
      Runs.State.State(positions, cursor, Rows(cycles, metrics), job)
    }

    constructor (p: Params, w: int)
      requires Setting(p, w)
      ensures Valid() && State() == START && this.p == p && this.w == w
    {
      this.p, this.w := p, w;
      positions, cursor, cycles, metrics, job := [], None, {}, map[], None;
    }

    /** Stores a fix and its mark, in one transaction. */
    method Insert(f: Fix) returns (inserted: bool)
      requires Valid()
      modifies `positions, `cursor
      ensures Valid() && State() == Next(p, w, old(State()), Store(f))
      ensures inserted <==> forall g :: g in old(positions) ==> g.ts != f.ts
    {
      InsertedSorted(positions, f);
      inserted := IsNew(positions, f);
      if inserted {
        NewHasIt(positions, f);
        positions := Inserted(positions, f);
        cursor := Some(Marked(cursor, f.ts));
      }
    }

    /** One tick over this asset. */
    method Refresh() returns (rebuilt: bool)
      requires Valid()
      modifies `cursor, `cycles, `metrics
      ensures Valid() && State() == Next(p, w, old(State()), Tick)
      ensures rebuilt <==> !PassedOver(p, w, old(State()))
    {
      rebuilt := false;
      if cursor.None? {
        return;
      }
      var cur := cursor.value;
      var window := ChooseWindow(p, w, cur, positions, metrics.Keys);
      if window.None? {
        return;
      }
      ChosenAligned(p, w, cur, positions, metrics.Keys);
      hide ChooseWindow, Rebuilt, Advanced, Sorted;
      var resume := Apply(window.value);
      AdvancedAligned(p, w, cur, positions, window.value, resume, None);
      cursor := Some(Advanced(p, w, cur, positions, window.value, resume, None));
      rebuilt := true;
    }

    /** Rebuilds the cycles and buckets from `span` to the newest fix. */
    method Apply(span: Span) returns (resume: Resume)
      requires Valid() && 0 < |positions| && Aligned(w, span.metricsFrom)
      modifies `cycles, `metrics
      ensures (Rows(cycles, metrics), resume) == Rebuilt(p, w, old(State()), span)
    {
      hide Rewritten, Finished, ResumeFrom, StillInOpenVisit, Floor, Sorted, FirstFrom;
      if StillInOpenVisit(p, ReadFrom(positions, span), span) {
        resume := Resume(span.cyclesFrom, true, true);
        var kept := Kept(p, cycles, span.cyclesFrom, span.metricsFrom);
        metrics := Rewrite(p, w, metrics, positions, span.metricsFrom, [], kept);
      } else {
        var rows;
        rows, resume := WriteAll(p, w, positions, Rows(cycles, metrics), span);
        cycles, metrics := rows.cycles, rows.metrics;
      }
    }

    /** An on-demand rebuild begins: the window is chosen, and its first transaction runs. */
    method Begin(start: Option<int>)
      requires Valid()
      modifies `cursor, `cycles, `metrics, `job
      ensures Valid() && State() == Next(p, w, old(State()), Recompute(start))
    {
      if |positions| > 0 {
        var span := OnDemandWindow(p, w, positions, start, metrics.Keys);
        OnDemandStart(p, w, positions, start, metrics.Keys);
        hide OnDemandWindow, AfterSlice, Sorted;
        WriteOne(span);
      }
    }

    /** Its next transaction. */
    method Proceed()
      requires Valid()
      modifies `cursor, `cycles, `metrics, `job
      ensures Valid() && State() == Next(p, w, old(State()), Continue)
    {
      if |positions| > 0 && job.Some? {
        hide AfterSlice, Sorted;
        WriteOne(job.value);
      }
    }

    /** One transaction: a slice, or the last rebuild, which moves the cursor. */
    method WriteOne(span: Span)
      requires Valid() && 0 < |positions| && Aligned(w, span.metricsFrom)
      modifies `cursor, `cycles, `metrics, `job
      ensures Valid() && State() == AfterSlice(p, w, old(State()), span)
    {
      hide Sliced, Finished, ResumeFrom, Advanced, Sorted, EntryKnownAt, Floor;
      var end := SliceEnd(p, w, positions, span);
      if end.Some? {
        EndAligned(p, w, positions, span);
        var rows := WriteSlice(p, w, positions, Rows(cycles, metrics), span, end.value);
        cycles, metrics := rows.cycles, rows.metrics;
        job := Some(Span(end.value, EntryKnownAt(positions, end.value), end.value, None));
      } else {
        var rows, resume := WriteAll(p, w, positions, Rows(cycles, metrics), span);
        AdvancedAligned(p, w, cursor.value, positions, span, resume, cursor.value.dirty);
        cycles, metrics, job := rows.cycles, rows.metrics, None;
        cursor := Some(Advanced(p, w, cursor.value, positions, span, resume, cursor.value.dirty));
      }
    }
  }

  ghost predicate Aligned(w: int, m: int) {
    w > 0 && Floor(m, w) == m
  }

  lemma NewHasIt(F: seq<Fix>, f: Fix)
    requires Sorted(F) && IsNew(F, f)
    ensures Inserted(F, f) != []
  {
  }

  lemma EndAligned(p: Params, w: int, F: seq<Fix>, span: Span)
    requires w > 0 && 0 < |F| && SliceEnd(p, w, F, span).Some?
    ensures Aligned(w, SliceEnd(p, w, F, span).value)
  {
    hide Floor;
    FloorAgain(Min(Min(span.cyclesFrom, span.metricsFrom) + CHUNK, F[|F|-1].ts - Lookback(p)), w);
  }

  lemma AdvancedAligned(p: Params, w: int, cur: Cursor, F: seq<Fix>, span: Span, resume: Resume, dirty: Option<int>)
    requires w > 0 && 0 < |F| && (cur.metricsFrom.Some? ==> Aligned(w, cur.metricsFrom.value))
    ensures var after := Advanced(p, w, cur, F, span, resume, dirty);
            after.metricsFrom.Some? ==> Aligned(w, after.metricsFrom.value)
  {
    hide Floor;
    FloorAgain(F[|F|-1].ts - p.minVisit - p.minExit, w);
  }

  lemma ChosenAligned(p: Params, w: int, cur: Cursor, F: seq<Fix>, stored: set<int>)
    requires w > 0 && ChooseWindow(p, w, cur, F, stored).Some?
    requires (cur.metricsFrom.Some? ==> Aligned(w, cur.metricsFrom.value))
    ensures Aligned(w, ChooseWindow(p, w, cur, F, stored).value.metricsFrom)
  {
    hide Floor;
    if cur.resume.None? || cur.metricsFrom.None? {
      var start := ChooseWindow(p, w, cur, F, stored).value.cyclesFrom;
      FloorAgain(start, w);
      FloorNext(Floor(start, w), w);
    } else if cur.dirty.Some? {
      FloorPrevious(cur.dirty.value, w);
    }
  }

  /** After any interleaving of stored fixes, ticks and transactions of on-demand rebuilds, each at a
      moment it may come at, that ends in a tick: every row is the one a rebuild of the whole
      history would write, and the cursor holds its restart point. */
  method Run(p: Params, w: int, ops: seq<Op>) returns (a: Asset)
    requires Setting(p, w)
    ensures fresh(a) && a.p == p && a.w == w && a.State() == AfterAll(p, w, ops)
    ensures Sound(p, w, ops) && |ops| > 0 && ops[|ops|-1].Tick? ==>
      && a.cycles == Table(p, a.positions) && a.metrics == FullMetrics(p, w, a.positions)
      && (|a.positions| > 0 ==> a.cursor.Some? && a.cursor.value.resume == Some(FullResume(p, a.positions)))
  {
    a := new Asset(p, w);
    hide Next, Sound, Table, FullMetrics, FullResume, Setting;
    for i := 0 to |ops|
      invariant fresh(a) && a.Valid() && a.p == p && a.w == w && a.State() == AfterAll(p, w, ops[..i])
    {
      assert ops[..i+1][..i] == ops[..i];
      match ops[i] {
        case Store(f) => var inserted := a.Insert(f);
        case Tick => var rebuilt := a.Refresh();
        case Recompute(start) => a.Begin(start);
        case Continue => a.Proceed();
      }
    }
    assert ops[..|ops|] == ops;
    if Sound(p, w, ops) && |ops| > 0 && ops[|ops|-1].Tick? {
      TickEnds(p, w, ops);
      RunRight(p, w, ops);
    }
  }
}

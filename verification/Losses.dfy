/** Runs after which a row stays wrong, for each way an on-demand rebuild can go wrong that
    `Runs.Careful` rules out: starting past the restart point, leaving a mark too near the cursor,
    leaving the first bucket out, and passing by a fix stored between its slices. */
module Losses {
  import opened Wrappers
  import opened Track
  import opened Cycles
  import opened Analysis
  import opened Locality
  import opened Restart
  import opened Finality
  import opened Metrics
  import opened Recompute
  import opened Buckets
  import opened Refresh
  import opened Stored
  import opened Slices
  import opened Runs
  import opened Standing
  import opened Interleavings
  import opened FirstBucket
  import opened Rebuilds
  import opened Conditions
  import Resumption

  const SECOND := 1_000_000
  const BUCKET := 300 * SECOND

  /** The program's constants, with the shortest haul cap it allows. */
  predicate Shortest(p: Params) {
    p.minVisit == 15 * SECOND && p.minExit == 15 * SECOND && p.cap == Some(600 * SECOND)
  }

  lemma ShortestFits(p: Params)
    requires Shortest(p)
    ensures Setting(p, BUCKET) && Lookback(p) == 690 * SECOND
  {
  }

  // ---- fixes stored in order, and a tick ------------------------------------------------------

  function StoreAll(F: seq<Fix>): seq<Op> {
    if |F| == 0 then [] else StoreAll(F[..|F|-1]) + [Store(F[|F|-1])]
  }

  /** A fix later than all is stored last. */
  lemma InsertedLast(F: seq<Fix>, f: Fix)
    requires Sorted(F + [f])
    ensures Inserted(F, f) == F + [f] && IsNew(F, f)
  {
    assert forall i :: 0 <= i < |F| ==> (F + [f])[i] == F[i];
    assert (F + [f])[|F|] == f;
    assert FirstFrom(F, f.ts) == |F|;
  }

  /** The state after the fixes of `F` were stored, before any tick. */
  function Unticked(F: seq<Fix>): State {
    State(F, if |F| == 0 then None else Some(Cursor(None, None, None, Some(F[0].ts))), NOTHING, None)
  }

  lemma StoredOne(p: Params, w: int, F: seq<Fix>, f: Fix, n: Notes)
    requires w > 0 && p.cap.Some? && Sorted(F + [f])
    ensures Next(p, w, Unticked(F), Store(f)) == Unticked(F + [f])
    ensures NextNotes(p, w, Unticked(F), n, Store(f)) == n && Careful(p, w, Unticked(F), n, Store(f))
  {
    InsertedLast(F, f);
    if |F| > 0 {
      assert (F + [f])[0] == F[0] && (F + [f])[|F|] == f;
    }
    hide Inserted, IsNew;
  }

  lemma {:induction false} StoredAll(p: Params, w: int, F: seq<Fix>)
    requires Setting(p, w) && Sorted(F)
    ensures AfterAll(p, w, StoreAll(F)) == Unticked(F)
    ensures NotesOf(p, w, StoreAll(F)) == Notes([], [], false) && Sound(p, w, StoreAll(F))
  {
    if |F| == 0 {
      StartsEmpty(p, w, F);
    } else {
      var init, f := F[..|F|-1], F[|F|-1];
      assert F == init + [f] && StoreAll(F) == StoreAll(init) + [Store(f)];
      SortedInit(F);
      SettingIs(p, w);
      hide *;
      NothingQuiet(p);
      StoredAll(p, w, init);
      StoredOne(p, w, init, f, Notes([], [], false));
      OneMoreOp(p, w, StoreAll(init), Store(f));
    }
  }

  lemma StartsEmpty(p: Params, w: int, F: seq<Fix>)
    requires w > 0 && p.cap.Some? && F == []
    ensures StoreAll(F) == [] && AfterAll(p, w, []) == Unticked([])
    ensures NotesOf(p, w, []) == Notes([], [], false) && Sound(p, w, [])
  {
  }

  lemma SortedInit(F: seq<Fix>)
    requires Sorted(F) && 0 < |F|
    ensures Sorted(F[..|F|-1])
  {
  }

  lemma NothingQuiet(p: Params)
    ensures Quiet(p, [])
  {
  }

  /** After a tick every row is right, and the cursor has read everything. */
  lemma {:induction false} TickedAll(p: Params, w: int, F: seq<Fix>)
    requires Setting(p, w) && Sorted(F) && 0 < |F|
    ensures var s := AfterAll(p, w, StoreAll(F) + [Tick]);
            && s == State(F, Some(Moved(p, w, Cursor(None, None, None, None), F)), s.rows, None)
            && Right(p, w, F, s.rows.cycles, s.rows.metrics)
  {
    var s, n := AfterAll(p, w, StoreAll(F)), NotesOf(p, w, StoreAll(F));
    StoredAll(p, w, F);
    OneMoreOp(p, w, StoreAll(F), Tick);
    RunInv(p, w, StoreAll(F));
    NothingQuiet(p);
    FirstTick(p, w, s, n);
    hide Inv, Quiet, AfterTick, Right, FullResume, NextMetricsFrom, AfterAll, NotesOf, Sound, PassedOver;
    TickRight(p, w, s, n);
  }

  lemma FirstTick(p: Params, w: int, s: State, n: Notes)
    requires w > 0 && n == Notes([], [], false) && s.cursor.Some? && 0 < |s.positions|
    requires s.cursor == Some(Cursor(None, None, None, Some(s.positions[0].ts)))
    ensures !PassedOver(p, w, s) && FirstWhole(w, s, n) && Trusted(p, s.cursor.value, n.base)
  {
    hide Floor, MetricsStart;
  }

  /** A fix later than all, and than what the cursor has read, changes nothing but the positions. */
  lemma StoredLater(s: State, f: Fix)
    requires Sorted(s.positions + [f]) && s.cursor.Some? && s.cursor.value.through.Some?
    requires f.ts > s.cursor.value.through.value
    ensures AfterStore(s, f) == s.(positions := s.positions + [f])
  {
    InsertedLast(s.positions, f);
  }

  // ---- the runs -------------------------------------------------------------------------------

  /** A fix `t` seconds on, in a load zone, in a dump zone or in neither. */
  function At(t: int, load: bool, dump: bool): Fix {
    Resumption.At(t, load, dump)
  }

  /** A visit that ends with fix `e - 1`, the next one starting at fix `n`. */
  lemma {:induction false} VisitIs(p: Params, F: seq<Fix>, k: Kind, s: nat, e: nat, n: nat)
    requires StartAt(p, F, k, s) && s < e <= n <= |F| && (n < |F| ==> StartAt(p, F, k, n)) && F[e-1].In(k)
    requires forall i :: s < i < n ==> !StartAt(p, F, k, i)
    requires forall i {:trigger F[i].In(k)} :: e <= i < n ==> !F[i].In(k)
    ensures VisitEnd(p, F, k, s) == e && ExitTs(p, F, k, s) == TimeAt(F, e)
  {
    hide StartAt;
    NextStartIs(p, F, k, s + 1, n);
  }

  /** Loaded, dumped, and loading again. */
  function Circuit(): seq<Fix> {
    [At(0, true, false), At(20, false, false), At(550, false, false), At(560, false, true), At(578, false, false),
     At(590, true, false), At(610, false, false)]
  }

  lemma {:induction false} CircuitVisits(p: Params)
    requires Shortest(p)
    ensures var F := Circuit();
            && Sorted(F) && Long(p, F, Load, 0) && VisitEnd(p, F, Load, 0) == 1 && Long(p, F, Load, 5)
            && Long(p, F, Dump, 3)
            && (forall i :: 0 < i < 5 ==> !StartAt(p, F, Load, i))
            && (forall i :: 0 <= i < 3 ==> !StartAt(p, F, Dump, i))
  {
    var F := Circuit();
    assert F[0].In(Load) && F[5].In(Load) && F[3].In(Dump);
    assert forall i :: 0 <= i < 7 && i != 0 && i != 5 ==> !F[i].In(Load);
    assert forall i :: 0 <= i < 7 && i != 3 ==> !F[i].In(Dump);
    assert StartAt(p, F, Load, 0) && StartAt(p, F, Load, 5) && StartAt(p, F, Dump, 3);
    VisitIs(p, F, Load, 0, 1, 5);
    VisitIs(p, F, Load, 5, 6, 7);
    VisitIs(p, F, Dump, 3, 4, 7);
  }

  /** The first visit opens a cycle when the next load visit, within the cap, counts, and so does a
      dump visit in between. */
  lemma {:induction false} TakesCycle(p: Params, F: seq<Fix>, e: nat, d: nat, n: nat)
    requires e <= d < n < |F| && !p.TooLong(F[n].ts - F[0].ts)
    requires Long(p, F, Load, 0) && VisitEnd(p, F, Load, 0) == e && Long(p, F, Load, n) && Long(p, F, Dump, d)
    requires forall i :: 0 < i < n ==> !StartAt(p, F, Load, i)
    requires forall i :: 0 <= i < d ==> !StartAt(p, F, Dump, i)
    ensures CycleAt(p, F, 0).Some?
  {
    hide StartAt, VisitEnd, CycleAt;
    assert forall i :: 0 < i < n ==> !Long(p, F, Load, i);
    assert forall i :: 0 <= i < d ==> !Long(p, F, Dump, i);
    hide Long;
    NextLongIs(p, F, Load, 1, n);
    NextLongIs(p, F, Dump, e, d);
    CycleAtIs(p, F, 0, e, d, n);
  }

  lemma {:induction false} CircuitCycle(p: Params)
    requires Shortest(p)
    ensures CycleAt(p, Circuit(), 0).Some?
  {
    CircuitVisits(p);
    var F := Circuit();
    assert |F| == 7 && F[5].ts - F[0].ts == 590 * SECOND;
    assert !p.TooLong(F[5].ts - F[0].ts);
    hide *;
    TakesCycle(p, F, 1, 3, 5);
  }

  /** A track that is never in a load zone again has no cycle. */
  lemma {:induction false} NoneYet(p: Params, F: seq<Fix>)
    requires forall i {:trigger F[i].In(Load)} :: 0 < i < |F| ==> !F[i].In(Load)
    ensures Table(p, F) == {}
  {
    forall s: nat | s < |F| ensures CycleAt(p, F, s) == None {
      assert forall i :: s < i < |F| ==> !StartAt(p, F, Load, i);
      hide StartAt, CycleAt;
      assert forall i :: s < i < |F| ==> !Long(p, F, Load, i);
      hide Long;
      NextLongIs(p, F, Load, s + 1, |F|);
      NotClosedNoCycle(p, F, s);
    }
    hide CycleAt;
  }

  /** Later fixes, stored in order after the cursor has read all there was, wait for the next tick. */
  lemma {:induction false} StoredMore(p: Params, w: int, ops: seq<Op>, more: seq<Fix>)
    requires w > 0 && p.cap.Some?
    requires var s := AfterAll(p, w, ops);
             && 0 < |s.positions| && Sorted(s.positions + more) && s.cursor.Some?
             && s.cursor.value.through == Some(s.positions[|s.positions|-1].ts)
    ensures var s := AfterAll(p, w, ops); AfterAll(p, w, ops + StoreAll(more)) == s.(positions := s.positions + more)
  {
    hide *;
    var s := AfterAll(p, w, ops);
    if |more| == 0 {
      NothingMore(ops, s.positions);
    } else {
      var init, f := more[..|more|-1], more[|more|-1];
      AppendInit(s.positions, more);
      StoreAllInit(ops, more);
      InitSorted(s.positions + init, f);
      StoredMore(p, w, ops, init);
      StoredNext(p, w, ops + StoreAll(init), f);
    }
  }

  lemma NothingMore(ops: seq<Op>, F: seq<Fix>)
    ensures ops + StoreAll([]) == ops && F + [] == F
  {
  }

  lemma StoredNext(p: Params, w: int, ops: seq<Op>, f: Fix)
    requires w > 0 && p.cap.Some?
    requires var s := AfterAll(p, w, ops);
             && Sorted(s.positions + [f]) && s.cursor.Some?
             && s.cursor.value.through.Some? && f.ts > s.cursor.value.through.value
    ensures var s := AfterAll(p, w, ops); AfterAll(p, w, ops + [Store(f)]) == s.(positions := s.positions + [f])
  {
    hide *;
    OneMoreOp(p, w, ops, Store(f));
    NextStore(p, w, AfterAll(p, w, ops), f);
    StoredLater(AfterAll(p, w, ops), f);
  }

  lemma AppendInit(F: seq<Fix>, more: seq<Fix>)
    requires 0 < |F| && 0 < |more| && Sorted(F + more)
    ensures F + more == F + more[..|more|-1] + [more[|more|-1]] && more[|more|-1].ts > F[|F|-1].ts
  {
    assert (F + more)[|F|-1].ts < (F + more)[|F + more|-1].ts;
  }

  lemma StoreAllInit(ops: seq<Op>, more: seq<Fix>)
    requires 0 < |more|
    ensures ops + StoreAll(more) == ops + StoreAll(more[..|more|-1]) + [Store(more[|more|-1])]
  {
  }

  lemma InitSorted(F: seq<Fix>, f: Fix)
    requires Sorted(F + [f])
    ensures Sorted(F)
  {
    assert forall i :: 0 <= i < |F| ==> (F + [f])[i] == F[i];
  }

  /** The track of `F`, ticked; a rebuild asked to start at `t`; the fixes of `more`; a tick. */
  function Passing(F: seq<Fix>, t: int, more: seq<Fix>): seq<Op> {
    StoreAll(F) + [Tick] + [Recompute(Some(t))] + StoreAll(more) + [Tick]
  }

  lemma {:induction false} PassedRun(p: Params, w: int, F: seq<Fix>, t: int, more: seq<Fix>, y: Cycle)
    requires Setting(p, w) && 0 < |F| && Sorted(F + more) && y !in Table(p, F)
    requires F[0].ts <= y.start < t - Lookback(p) <= F[|F|-1].ts <= F[0].ts + Lookback(p) + CHUNK_MIN - w
    ensures var s := AfterAll(p, w, Passing(F, t, more)); s.positions == F + more && y !in s.rows.cycles
  {
    PrefixExtends(F, more);
    hide Table, AfterAll, Extends, Sorted, Right, FullResume, NextMetricsFrom, OnDemandWindow, Next, AfterTick;
    TickedAll(p, w, F);
    var ops := StoreAll(F) + [Tick];
    var s := AfterAll(p, w, ops);
    assert y !in s.rows.cycles;
    LateWindow(p, w, F, t, s.rows.metrics.Keys);
    RestartPassed(p, w, s, Some(t), F + more, y);
    OneTransaction(p, w, s, Some(t), F + more);
    SettingIs(p, w);
    OneMoreOp(p, w, ops, Recompute(Some(t)));
    RecomputeReads(p, w, s, t);
    StoredMore(p, w, ops + [Recompute(Some(t))], more);
    OneMoreOp(p, w, ops + [Recompute(Some(t))] + StoreAll(more), Tick);
    NextTick(p, w, AfterAll(p, w, ops + [Recompute(Some(t))] + StoreAll(more)));
  }

  lemma NextTick(p: Params, w: int, s: State)
    requires w > 0 && p.cap.Some?
    ensures Next(p, w, s, Tick) == AfterTick(p, w, s) && AfterTick(p, w, s).positions == s.positions
  {
    hide Rebuilt, ChooseWindow, Advanced;
  }

  lemma PrefixExtends(F: seq<Fix>, more: seq<Fix>)
    requires Sorted(F + more)
    ensures Sorted(F) && Extends(F, F + more)
  {
    assert forall i :: 0 <= i < |F| ==> (F + more)[i] == F[i];
    assert (F + more)[..|F|] == F == F[..|F|];
  }

  /** The window of a rebuild asked to start that late, and that one transaction will do for it. */
  lemma LateWindow(p: Params, w: int, F: seq<Fix>, t: int, stored: set<int>)
    requires Setting(p, w) && 0 < |F| && F[0].ts < t - Lookback(p)
    requires F[|F|-1].ts <= F[0].ts + Lookback(p) + CHUNK_MIN - w
    ensures var span := OnDemandWindow(p, w, F, Some(t), stored);
            span.cyclesFrom == t - Lookback(p) && SliceEnd(p, w, F, span).None?
  {
    hide Lookback;
  }

  lemma RecomputeReads(p: Params, w: int, s: State, t: int)
    requires Setting(p, w) && 0 < |s.positions| && s.cursor.Some?
    requires var F := s.positions; F[0].ts < t - Lookback(p) <= F[|F|-1].ts <= F[0].ts + Lookback(p) + CHUNK_MIN - w
    ensures var u := Next(p, w, s, Recompute(Some(t)));
            && u.positions == s.positions && u.cursor.Some?
            && u.cursor.value.through == Some(s.positions[|s.positions|-1].ts)
  {
    hide OnDemandWindow, AfterSlice, Setting, Lookback;
    SettingIs(p, w);
    LateWindow(p, w, s.positions, t, s.rows.metrics.Keys);
    EndCursor(p, w, s, OnDemandWindow(p, w, s.positions, Some(t), s.rows.metrics.Keys));
  }

  /** An on-demand rebuild asked to start 141 s past the newest fix, well within the lookback, moves
      the cursor past a load visit still waiting for its cycle to close; the tick after the cycle has
      closed does not write it. */
  lemma {:induction false} PassedCycle(p: Params)
    requires Shortest(p)
    ensures var s := AfterAll(p, BUCKET, Passing(Circuit()[..3], 691 * SECOND, Circuit()[3..]));
            s.positions == Circuit() && exists y :: y in Table(p, s.positions) && y !in s.rows.cycles
  {
    var G := Circuit();
    CircuitCycle(p);
    CircuitParts(p);
    ShortestFits(p);
    hide *;
    CycleStart(p, G, 0);
    CycleIn(p, G, 0);
    PassedRun(p, BUCKET, G[..3], 691 * SECOND, G[3..], CycleAt(p, G, 0).value);
  }

  lemma CycleIn(p: Params, F: seq<Fix>, s: nat)
    requires s < |F| && CycleAt(p, F, s).Some?
    ensures CycleAt(p, F, s).value in Table(p, F)
  {
    hide CycleAt;
  }

  lemma CircuitParts(p: Params)
    requires Shortest(p)
    ensures var G := Circuit(); var F := G[..3];
            && |G| == 7 && |F| == 3 && F + G[3..] == G && Sorted(G) && Table(p, F) == {}
            && F[0].ts == G[0].ts == 0 && F[2].ts == 550 * SECOND
  {
    CircuitVisits(p);
    CircuitStarts();
    hide *;
    NoneYet(p, Circuit()[..3]);
  }

  lemma CircuitStarts()
    ensures var G := Circuit(); var F := G[..3];
            && |G| == 7 && F + G[3..] == G && F[0].ts == G[0].ts == 0 && F[2].ts == 550 * SECOND
            && forall i {:trigger F[i].In(Load)} :: 0 < i < |F| ==> !F[i].In(Load)
  {
    var G := Circuit();
    var F := G[..3];
    assert F + G[3..] == G && F[0] == G[0] && F[1] == G[1] && F[2] == G[2];
  }

  // ---- a mark the next tick does not go back from ---------------------------------------------

  /** The track of `B`, ticked; a late fix; a rebuild asked to start at `t`; a tick. */
  function Marking(B: seq<Fix>, late: Fix, t: int): seq<Op> {
    StoreAll(B) + [Tick] + [Store(late)] + [Recompute(Some(t))] + [Tick]
  }

  /** A late fix behind what the cursor has read is marked. */
  lemma StoredLate(p: Params, w: int, s: State, late: Fix)
    requires w > 0 && p.cap.Some? && IsNew(s.positions, late) && s.cursor.Some?
    requires s.cursor.value.through.Some? && late.ts < s.cursor.value.through.value && s.cursor.value.dirty.None?
    ensures Next(p, w, s, Store(late)) ==
      s.(positions := Inserted(s.positions, late), cursor := Some(s.cursor.value.(dirty := Some(late.ts))))
  {
    hide Inserted, IsNew;
  }

  /** The rebuild finds the restart point with the late fix in place, keeps the mark, and does not
      write a cycle opened before its window; the mark being no nearer than `minVisit` to that restart
      point, neither does the tick. */
  lemma {:induction false} MarkedRun(p: Params, w: int, B: seq<Fix>, late: Fix, t: int, y: Cycle)
    requires Setting(p, w) && 0 < |B| && Sorted(B) && IsNew(B, late) && B[0].ts < late.ts < B[|B|-1].ts
    requires y !in Table(p, B) && B[0].ts <= y.start < t - Lookback(p)
    requires B[|B|-1].ts <= B[0].ts + Lookback(p) + CHUNK_MIN - w
    requires var G := Inserted(B, late);
             && 0 < |G| && t - Lookback(p) <= FullResume(p, G).ts && FullResume(p, G).ts + p.minVisit <= late.ts
    ensures var s := AfterAll(p, w, Marking(B, late, t)); s.positions == Inserted(B, late) && y !in s.rows.cycles
  {
    var G := Inserted(B, late);
    SettingIs(p, w);
    StoredBetween(B, late);
    hide Table, AfterAll, Sorted, Right, FullResume, NextMetricsFrom, OnDemandWindow, Next, AfterTick, Inserted, IsNew;
    TickedAll(p, w, B);
    var ops := StoreAll(B) + [Tick];
    OneMoreOp(p, w, ops, Store(late));
    StoredLate(p, w, AfterAll(p, w, ops), late);
    var s := AfterAll(p, w, ops + [Store(late)]);
    assert s.positions == G && y !in s.rows.cycles;
    OneMoreOp(p, w, ops + [Store(late)], Recompute(Some(t)));
    MarkedRebuild(p, w, s, t, y);
    var u := AfterAll(p, w, ops + [Store(late)] + [Recompute(Some(t))]);
    OneMoreOp(p, w, ops + [Store(late)] + [Recompute(Some(t))], Tick);
    TickPasses(p, w, u, y);
    NextTick(p, w, u);
  }

  lemma StoredBetween(B: seq<Fix>, late: Fix)
    requires 0 < |B| && Sorted(B) && IsNew(B, late) && B[0].ts < late.ts < B[|B|-1].ts
    ensures var G := Inserted(B, late); Sorted(G) && 0 < |G| && G[0] == B[0] && G[|G|-1] == B[|B|-1]
  {
    InsertedSorted(B, late);
    assert 0 < FirstFrom(B, late.ts) < |B|;
  }

  lemma {:induction false} MarkedRebuild(p: Params, w: int, s: State, t: int, y: Cycle)
    requires Setting(p, w) && 0 < |s.positions| && Sorted(s.positions) && s.cursor.Some?
    requires var F := s.positions;
             && F[0].ts <= y.start < t - Lookback(p) <= FullResume(p, F).ts
             && F[|F|-1].ts <= F[0].ts + Lookback(p) + CHUNK_MIN - w
    ensures var u := Next(p, w, s, Recompute(Some(t)));
            && u.positions == s.positions && u.cursor.Some? && u.cursor.value.dirty == s.cursor.value.dirty
            && u.cursor.value.resume == Some(FullResume(p, s.positions)) && u.cursor.value.metricsFrom.Some?
            && (y in u.rows.cycles <==> y in s.rows.cycles)
  {
    var F := s.positions;
    ResumeNotPast(p, F);
    SettingIs(p, w);
    LateWindow(p, w, F, t, s.rows.metrics.Keys);
    Itself(F);
    hide OnDemandWindow, AfterSlice, Setting, Lookback, FullResume, RebuiltThen, Sorted, Extends, AfterTick;
    RestartPassed(p, w, s, Some(t), F, y);
    OneTransaction(p, w, s, Some(t), F);
    NextKeeps(p, w, s, Some(t));
  }

  lemma Itself(F: seq<Fix>)
    requires Sorted(F)
    ensures Extends(F, F)
  {
  }

  lemma NextKeeps(p: Params, w: int, s: State, start: Option<int>)
    requires w > 0 && p.cap.Some?
    ensures Next(p, w, s, Recompute(start)).positions == s.positions
  {
    hide OnDemandWindow, Sliced, Finished, Advanced, SliceEnd;
  }

  lemma ResumeNotPast(p: Params, F: seq<Fix>)
    requires Sorted(F) && 0 < |F|
    ensures FullResume(p, F).ts <= F[|F|-1].ts
  {
    hide Anchor;
  }

  /** A haul whose second load visit lasts long enough to count only with the fix that comes late. */
  function Delayed(): seq<Fix> {
    [At(0, true, false), At(20, false, false), At(100, false, true), At(140, false, false), At(400, true, false),
     At(410, false, false), At(440, false, false), At(790, false, false)]
  }

  function Whole(): seq<Fix> {
    [At(0, true, false), At(20, false, false), At(100, false, true), At(140, false, false), At(400, true, false),
     At(410, false, false), At(420, true, false), At(440, false, false), At(790, false, false)]
  }

  lemma {:induction false} DelayedVisits(p: Params)
    requires Shortest(p)
    ensures var F := Delayed();
            Sorted(F) && Inserted(F, At(420, true, false)) == Whole() && IsNew(F, At(420, true, false)) &&
              Table(p, F) == {}
  {
    var F, f := Delayed(), At(420, true, false);
    assert F[0].In(Load) && F[4].In(Load);
    assert forall i :: 0 <= i < 8 && i != 0 && i != 4 ==> !F[i].In(Load);
    assert StartAt(p, F, Load, 0) && StartAt(p, F, Load, 4);
    VisitIs(p, F, Load, 4, 5, 8);
    assert !Long(p, F, Load, 4);
    DelayedLast(p, F);
    assert FirstFrom(F, f.ts) == 6;
    assert Inserted(F, f) == F[..6] + [f] + F[6..] == Whole();
  }

  /** Where no load visit after the first counts there is no cycle. */
  lemma {:induction false} DelayedLast(p: Params, F: seq<Fix>)
    requires forall i :: 0 < i < |F| ==> !Long(p, F, Load, i)
    ensures Table(p, F) == {}
  {
    hide Long, CycleAt;
    forall s: nat | s < |F| ensures CycleAt(p, F, s) == None {
      NextLongIs(p, F, Load, s + 1, |F|);
      NotClosedNoCycle(p, F, s);
    }
  }

  lemma WholeIn()
    ensures var F := Whole();
            && Sorted(F) && |F| == 9 && F[0].In(Load) && F[4].In(Load) && F[6].In(Load) && F[2].In(Dump)
            && (forall i :: 0 <= i < 9 && i != 0 && i != 4 && i != 6 ==> !F[i].In(Load))
            && (forall i :: 0 <= i < 9 && i != 2 ==> !F[i].In(Dump))
            && F[0].ts == 0 && F[1].ts == 20 * SECOND && F[2].ts == 100 * SECOND && F[3].ts == 140 * SECOND
            && F[4].ts == 400 * SECOND && F[5].ts == 410 * SECOND && F[6].ts == 420 * SECOND && F[7].ts == 440 * SECOND
            && F[8].ts == 790 * SECOND
  {
  }

  lemma {:induction false} WholeVisits(p: Params)
    requires Shortest(p)
    ensures var F := Whole();
            && Long(p, F, Load, 0) && VisitEnd(p, F, Load, 0) == 1 && Long(p, F, Load, 4) && Long(p, F, Dump, 2)
            && (forall i :: 0 < i < 9 && i != 4 ==> !StartAt(p, F, Load, i))
            && (forall i :: 0 <= i < 2 ==> !StartAt(p, F, Dump, i))
  {
    var F := Whole();
    WholeIn();
    hide Whole, VisitEnd;
    assert StartAt(p, F, Load, 0) && StartAt(p, F, Load, 4) && StartAt(p, F, Dump, 2) && !StartAt(p, F, Load, 6);
    assert forall i :: 0 < i < 9 && i != 4 ==> !StartAt(p, F, Load, i);
    assert forall i :: 0 <= i < 9 && i != 2 ==> !StartAt(p, F, Dump, i);
    hide StartAt, Sorted;
    VisitIs(p, F, Load, 0, 1, 4);
    VisitIs(p, F, Load, 4, 7, 9);
    VisitIs(p, F, Dump, 2, 3, 9);
  }

  lemma {:induction false} WholeCycle(p: Params)
    requires Shortest(p)
    ensures CycleAt(p, Whole(), 0).Some? && FullResume(p, Whole()).ts == 400 * SECOND
  {
    WholeVisits(p);
    WholeIn();
    var F := Whole();
    assert !p.TooLong(F[4].ts - F[0].ts) && p.cap.value == 600 * SECOND;
    hide *;
    TakesCycle(p, F, 1, 2, 4);
    RestartsAt(p, F, 4);
  }

  /** A track whose last load visit counts, and began within the cap, restarts there. */
  lemma {:induction false} RestartsAt(p: Params, F: seq<Fix>, a: nat)
    requires a < |F| && Long(p, F, Load, a) && forall i :: a < i < |F| ==> !StartAt(p, F, Load, i)
    requires p.cap.Some? && F[|F|-1].ts - F[a].ts < p.cap.value
    ensures FullResume(p, F).ts == F[a].ts
  {
    LastOpenerIsLong(p, F, |F|);
    hide StartAt, Pending, LastStart;
    assert forall i :: a < i < |F| ==> !Long(p, F, Load, i);
    hide Long;
    assert LastLong(p, F, Load, |F|) == a;
  }

  /** A cycle that closes at a late fix is never written, although the fix is marked: the rebuild asked
      to start in between moves the cursor to the visit the fix completes, and so the next tick takes
      the mark to lie safely past it. */
  lemma {:induction false} ForgottenCycle(p: Params)
    requires Shortest(p)
    ensures var s := AfterAll(p, BUCKET, Marking(Delayed(), At(420, true, false), 691 * SECOND));
            s.positions == Whole() && exists y :: y in Table(p, s.positions) && y !in s.rows.cycles
  {
    var B, G, late := Delayed(), Whole(), At(420, true, false);
    DelayedVisits(p);
    WholeCycle(p);
    ShortestFits(p);
    WholeIn();
    assert |B| == 8 && B[0].ts == G[0].ts == 0 && B[7].ts == 790 * SECOND && late.ts == 420 * SECOND && |G| == 9;
    hide *;
    CycleStart(p, G, 0);
    CycleIn(p, G, 0);
    ShortestIs(p);
    MarkedRun(p, BUCKET, B, late, 691 * SECOND, CycleAt(p, G, 0).value);
  }

  lemma ShortestIs(p: Params)
    requires Shortest(p)
    ensures p.minVisit == 15 * SECOND
  {
  }

  // ---- a first bucket left out ----------------------------------------------------------------

  /** One fix, ticked; one more in its bucket, and one later; a rebuild of everything. */
  function Filled(first: Fix, f: Fix, last: Fix): seq<Op> {
    StoreAll([first]) + [Tick] + StoreAll([f, last]) + [Recompute(None)]
  }

  /** What matters of them: the first lies inside its bucket, the second, which has a speed, in the same,
      and the third so far on that the cursor passes the bucket. */
  predicate FillsFirst(p: Params, w: int, first: Fix, f: Fix, last: Fix)
    requires w > 0
  {
    && first.ts < f.ts < last.ts < first.ts + Lookback(p) && f.speed.Some?
    && Floor(first.ts, w) < first.ts && Floor(f.ts, w) == Floor(first.ts, w) < NextMetricsFrom(p, w, last.ts)
  }

  /** The second fix is missing from the first bucket, the cursor is past it, and nothing is left that
      would put it there. */
  lemma {:induction false} FilledRun(p: Params, w: int, first: Fix, f: Fix, last: Fix)
    requires Setting(p, w) && FillsFirst(p, w, first, f, last)
    ensures var s := AfterAll(p, w, Filled(first, f, last));
            && AllRead(s) && s.positions == [first, f, last] && Next(p, w, s, Tick) == s
            && s.rows.metrics != FullMetrics(p, w, s.positions)
            && s.cursor.Some? && s.cursor.value.metricsFrom.Some?
            && s.cursor.value.metricsFrom.value > Floor(first.ts, w)
  {
    var G := [first, f, last];
    assert Sorted(G) && Sorted([first]) && [first] + [f, last] == G && G[2] == last;
    assert NextMetricsFrom(p, w, last.ts) > Floor(first.ts, w);
    hide *;
    SettingParts(p, w);
    TickedAll(p, w, [first]);
    var ops := StoreAll([first]) + [Tick];
    var s := AfterAll(p, w, ops);
    MovedParts(p, w, s, [first]);
    StoredMore(p, w, ops, [f, last]);
    var ops2 := ops + StoreAll([f, last]);
    FilledRebuild(p, w, s, first, f, last);
    UndisturbedRun(p, w, ops2, None);
    NoMoreOps(ops2 + [Recompute(None)]);
    FilledIs(first, f, last);
    var t := AfterAll(p, w, ops2 + [Recompute(None)]);
    ReadAll(t);
    NothingNew(p, w, t);
  }

  lemma FilledIs(first: Fix, f: Fix, last: Fix)
    ensures Filled(first, f, last) == StoreAll([first]) + [Tick] + StoreAll([f, last]) + [Recompute(None)]
  {
    hide StoreAll;
  }

  lemma MovedParts(p: Params, w: int, s: State, F: seq<Fix>)
    requires w > 0 && 0 < |F| && s.positions == F && s.cursor == Some(Moved(p, w, Cursor(None, None, None, None), F))
    ensures s.cursor.Some? && s.cursor.value.dirty.None? && s.cursor.value.through == Some(F[|F|-1].ts)
  {
    hide FullResume, NextMetricsFrom;
  }

  lemma {:induction false} FilledRebuild(p: Params, w: int, s: State, first: Fix, f: Fix, last: Fix)
    requires Setting(p, w) && FillsFirst(p, w, first, f, last) && s.positions == [first] && s.cursor.Some?
    requires s.cursor.value.dirty.None? && Right(p, w, [first], s.rows.cycles, s.rows.metrics)
    ensures var G := [first, f, last]; var span := OnDemandWindow(p, w, G, None, s.rows.metrics.Keys);
            && Sliceable(w, G, span) && Slicings(p, w, G, span) == 0
            && var t := Undisturbed(p, w, s.(positions := G), span);
               && t.positions == G && t.rows.metrics != FullMetrics(p, w, G) && t.cursor.Some?
               && t.cursor.value.resume.Some? && t.cursor.value.metricsFrom == Some(NextMetricsFrom(p, w, last.ts))
               && t.cursor.value.through == Some(last.ts) && t.cursor.value.dirty.None?
  {
    var B, G, b := [first], [first, f, last], Floor(first.ts, w);
    assert G[..1] == B && Sorted(G) && Sorted(B) && G[0] == first && G[1] == f && G[2] == last && Extends(B, G);
    assert B[0] == first && First(w, B) == b && b < first.ts && f.speed.Some? && Floor(f.ts, w) == b;
    hide *;
    SettingParts(p, w);
    var span := OnDemandWindow(p, w, G, None, s.rows.metrics.Keys);
    OnDemandSliceable(p, w, G, None, s.rows.metrics.Keys);
    OnDemandSpan(p, w, G, None, s.rows.metrics.Keys);
    RightThere(p, w, B, s.rows);
    FilledShort(p, w, G, span, first, f, last);
    NoSlice(p, w, s.(positions := G), span);
    UndisturbedIs(p, w, s.(positions := G), span);
    LastSpanGood(p, w, G, span);
    OnlySpan(p, w, G, s.rows, span);
    CursorThere(p, w, s.cursor.value, G, span, ResumeFrom(p, G, span.cyclesFrom, span.known));
    RebuildUntouched(p, w, G, s.rows, span, span.cyclesFrom, span.metricsFrom);
    StoredThere(p, w, B, G, s.rows);
    NextCounts(p, w, B, G, b);
    SpeedsDiffer(p, w, B, G);
    LeftOut(p, w, G, s.rows, RebuildRows(p, w, G, s.rows, span), span.cyclesFrom, span.metricsFrom, b);
  }

  lemma RightThere(p: Params, w: int, B: seq<Fix>, rows: Rows)
    requires 0 < |B| && w > 0 && Right(p, w, B, rows.cycles, rows.metrics)
    ensures First(w, B) in rows.metrics && RightAt(p, w, B, rows.metrics, First(w, B))
  {
    FirstPresent(w, B);
    FirstRow(p, w, B, First(w, B));
    hide FullMetrics, Table, Starts;
  }

  lemma FilledShort(p: Params, w: int, G: seq<Fix>, span: Span, first: Fix, f: Fix, last: Fix)
    requires Setting(p, w) && FillsFirst(p, w, first, f, last) && G == [first, f, last]
    requires span.cyclesFrom == first.ts && span.metricsFrom >= first.ts
    ensures SliceEnd(p, w, G, span).None?
  {
    assert G[2] == last;
    hide Floor, NextMetricsFrom, Lookback;
  }

  lemma OnlySpan(p: Params, w: int, G: seq<Fix>, rows: Rows, span: Span)
    requires Sliceable(w, G, span) && p.cap.Some? && p.Ok() && SliceEnd(p, w, G, span).None?
    ensures LastSpan(p, w, G, span) == span
  {
    hide Floor, Near;
  }

  lemma SpeedsDiffer(p: Params, w: int, B: seq<Fix>, G: seq<Fix>)
    requires 0 < |B| && w > 0 && Extends(B, G)
    requires Content(p, w, B, First(w, B), |B|).speedN < Content(p, w, G, First(w, B), |G|).speedN
    ensures !SameBucket(p, w, B, G, First(w, B))
  {
    FirstPresent(w, B);
    FirstShared(w, B, G);
    FirstPresent(w, G);
    FirstRow(p, w, B, First(w, B));
    FirstRow(p, w, G, First(w, B));
    hide FullMetrics, Content, Table, Starts, Floor, Ending;
  }

  /** A bucket that was not right and is left alone is not right. */
  lemma LeftOut(p: Params, w: int, G: seq<Fix>, before: Rows, after: Rows, c: int, m: int, b: int)
    requires w > 0 && Untouched(before, after, c, m) && b < m && !RightAt(p, w, G, before.metrics, b)
    ensures after.metrics != FullMetrics(p, w, G)
  {
    assert SameRow(before.metrics, after.metrics, b);
    SameAt(p, w, G, before.metrics, after.metrics, b);
    hide FullMetrics;
  }

  /** A rebuild of everything loses the metrics of a fix: its bucket is left out as one that older fixes
      may have been deleted from, and the cursor moves past it. */
  lemma SkippedBucket(p: Params)
    requires Shortest(p)
    ensures var f := At(100, false, false).(speed := Some(0.0));
            var s := AfterAll(p, BUCKET, Filled(At(10, false, false), f, At(400, false, false)));
            AllRead(s) && s.rows.metrics != FullMetrics(p, BUCKET, s.positions) && Next(p, BUCKET, s, Tick) == s
  {
    ShortestFits(p);
    hide AfterAll, FullMetrics, Setting, Next;
    assert Floor(10 * SECOND, BUCKET) == 0 && Floor(100 * SECOND, BUCKET) == 0;
    assert Floor(370 * SECOND, BUCKET) == 300 * SECOND;
    FilledRun(p, BUCKET, At(10, false, false), At(100, false, false).(speed := Some(0.0)), At(400, false, false));
  }

  // ---- a fix stored between two slices --------------------------------------------------------

  const HALF_HOUR := 1_800 * SECOND

  /** One fix, ticked; one much later; a rebuild of everything begins; a fix in between, which is ahead
      of what the cursor has read and so is not marked; the rebuild ends; a tick. */
  function Between(first: Fix, last: Fix, f: Fix): seq<Op> {
    StoreAll([first]) + [Tick] + [Store(last)] + [Recompute(None)] + [Store(f)] + [Continue] + [Tick]
  }

  /** What matters of the times: the fix lies in a bucket of its own, well inside the first slice. */
  ghost predicate Spaced(p: Params, w: int, first: Fix, last: Fix, f: Fix)
    requires w > 0
  {
    && first.ts == 0 && last.ts == CHUNK + Lookback(p) + HALF_HOUR && Floor(CHUNK, w) == CHUNK && Floor(0, w) == 0
    && 0 < f.ts < last.ts && 0 < Floor(f.ts, w) < CHUNK && CHUNK <= Floor(last.ts, w)
  }

  lemma {:induction false} FirstSlice(p: Params, w: int, s: State, first: Fix, last: Fix, f: Fix)
    requires Setting(p, w) && Spaced(p, w, first, last, f) && s.positions == [first, last]
    requires s.rows.metrics == FullMetrics(p, w, [first])
    ensures var t := Next(p, w, s, Recompute(None));
            && t == s.(rows := t.rows, job := Some(Span(CHUNK, t.job.value.known, CHUNK, None)))
            && Floor(f.ts, w) !in t.rows.metrics
  {
    hide *;
    SettingIs(p, w);
    var F := s.positions;
    var span := OnDemandWindow(p, w, F, None, s.rows.metrics.Keys);
    WholeSlice(p, w, F, s.rows.metrics.Keys, first, last, f);
    SlicedIs(p, w, s, span, CHUNK);
    SlicedKeys(p, w, F, s.rows, span, CHUNK);
    NextRecompute(p, w, s, None);
    NotAmong(p, w, first, last, f);
  }

  lemma SlicedKeys(p: Params, w: int, F: seq<Fix>, rows: Rows, span: Span, end: int)
    requires p.cap.Some? && w > 0 && Sorted(F)
    ensures Sliced(p, w, F, rows, span, end).metrics.Keys <= rows.metrics.Keys + Starts(F, w)
  {
    hide *;
    SliceOfFixes(p, w, rows.metrics, F, end + Lookback(p), span.metricsFrom, end,
                 SliceList(p, F, span, end, rows.cycles),
                 SliceKept(p, span, rows.cycles));
    SlicedMetrics(p, w, F, rows, span, end);
  }

  lemma SlicedMetrics(p: Params, w: int, F: seq<Fix>, rows: Rows, span: Span, end: int)
    requires p.cap.Some? && w > 0
    ensures Sliced(p, w, F, rows, span, end).metrics ==
      RewrittenUntil(p, w, rows.metrics, ReadUntil(F, end + Lookback(p)), span.metricsFrom, end,
                     SliceList(p, F, span, end, rows.cycles), SliceKept(p, span, rows.cycles))
  {
    hide RewrittenUntil, SliceList, SliceKept, ReadUntil, Lookback;
  }

  lemma NotAmong(p: Params, w: int, first: Fix, last: Fix, f: Fix)
    requires w > 0 && Spaced(p, w, first, last, f)
    ensures Floor(f.ts, w) !in FullMetrics(p, w, [first]) && Floor(f.ts, w) !in Starts([first, last], w)
  {
    hide Floor, Content, Table, Lookback;
  }

  lemma WholeSlice(p: Params, w: int, F: seq<Fix>, stored: set<int>, first: Fix, last: Fix, f: Fix)
    requires Setting(p, w) && Spaced(p, w, first, last, f) && F == [first, last]
    ensures Sorted(F) && SliceEnd(p, w, F, OnDemandWindow(p, w, F, None, stored)) == Some(CHUNK)
  {
    assert F[0] == first && F[1] == last;
    hide Floor, Lookback;
  }

  lemma RestIsShort(p: Params, w: int, F: seq<Fix>, span: Span, first: Fix, last: Fix, f: Fix)
    requires Setting(p, w) && Spaced(p, w, first, last, f) && F == [first, f, last]
    requires span == Span(CHUNK, span.known, CHUNK, None)
    ensures Sorted(F) && F[2] == last && SliceEnd(p, w, F, span).None? && GoodStart(p, w, F, span) && CHUNK <= F[2].ts
    ensures Floor(f.ts, w) < CHUNK
  {
    assert F[0] == first && F[1] == f && F[2] == last;
    hide Floor;
  }

  lemma StoredMiddle(first: Fix, last: Fix, f: Fix)
    requires first.ts < f.ts < last.ts
    ensures Inserted([first, last], f) == [first, f, last] && IsNew([first, last], f)
  {
    var F := [first, last];
    assert F[0] == first && F[1] == last;
    assert FirstFrom(F, f.ts) == 1;
  }

  /** The fix between the slices is in no bucket, and nothing is left that would put it in one. */
  lemma {:induction false} BetweenRun(p: Params, w: int, first: Fix, last: Fix, f: Fix)
    requires Setting(p, w) && Spaced(p, w, first, last, f)
    ensures var s := AfterAll(p, w, Between(first, last, f));
            && AllRead(s) && s.positions == [first, f, last]
            && Floor(f.ts, w) in FullMetrics(p, w, s.positions) && Floor(f.ts, w) !in s.rows.metrics
  {
    hide *;
    SettingIs(p, w);
    SpacedOut(p, w, first, last, f);
    StoredMiddle(first, last, f);
    TickedAll(p, w, [first]);
    var ops := StoreAll([first]) + [Tick];
    MovedParts(p, w, AfterAll(p, w, ops), [first]);
    OneMoreOp(p, w, ops, Store(last));
    NextStore(p, w, AfterAll(p, w, ops), last);
    StoredLater(AfterAll(p, w, ops), last);
    var ops2 := ops + [Store(last)];
    RightMetrics(p, w, [first], AfterAll(p, w, ops).rows);
    FirstSlice(p, w, AfterAll(p, w, ops2), first, last, f);
    OneMoreOp(p, w, ops2, Recompute(None));
    var ops3 := ops2 + [Recompute(None)];
    OneMoreOp(p, w, ops3, Store(f));
    OneMoreOp(p, w, ops3 + [Store(f)], Continue);
    OneMoreOp(p, w, ops3 + [Store(f)] + [Continue], Tick);
    LastIsNext(p, w, AfterAll(p, w, ops3), first, last, f);
    BetweenExact(p, w, AfterAll(p, w, ops3), f);
    DoneAfter(p, w, AfterAll(p, w, ops3), f);
    InBucket(w, [first, f, last], f);
    FirstRow(p, w, [first, f, last], Floor(f.ts, w));
    BetweenOps(first, last, f);
  }

  lemma SpacedOut(p: Params, w: int, first: Fix, last: Fix, f: Fix)
    requires Setting(p, w) && Spaced(p, w, first, last, f)
    ensures Sorted([first]) && [first][|[first]|-1] == first
    ensures [first] + [last] == [first, last] && Sorted([first, last])
    ensures first.ts < f.ts < last.ts && f in [first, f, last]
  {
    assert [first, f, last][1] == f;
    hide Floor;
  }

  lemma DoneAfter(p: Params, w: int, s: State, f: Fix)
    requires w > 0 && p.cap.Some?
    ensures StoredThenDone(p, w, s, f) == Next(p, w, Next(p, w, s, Store(f)), Continue)
  {
    hide Next;
  }

  lemma BetweenOps(first: Fix, last: Fix, f: Fix)
    ensures Between(first, last, f) ==
      StoreAll([first]) + [Tick] + [Store(last)] + [Recompute(None)] + [Store(f)] + [Continue] + [Tick]
  {
    hide StoreAll;
  }

  lemma LastIsNext(p: Params, w: int, s: State, first: Fix, last: Fix, f: Fix)
    requires Setting(p, w) && Spaced(p, w, first, last, f) && s.positions == [first, last] && s.cursor.Some?
    requires s.cursor.value.dirty.None? && s.cursor.value.through == Some(first.ts)
    requires s.job.Some? && s.job.value == Span(CHUNK, s.job.value.known, CHUNK, None)
    ensures LastToCome(p, w, s, f) && Floor(f.ts, w) < CHUNK
  {
    StoredMiddle(first, last, f);
    RestIsShort(p, w, [first, f, last], s.job.value, first, last, f);
    assert [first, last][0] == first && [first, last][1] == last;
    hide Inserted, IsNew, GoodStart, SliceEnd, Floor, Lookback;
  }

  lemma RightMetrics(p: Params, w: int, F: seq<Fix>, rows: Rows)
    requires w > 0 && Right(p, w, F, rows.cycles, rows.metrics)
    ensures rows.metrics == FullMetrics(p, w, F)
  {
    hide FullMetrics;
  }

  /** A fix stored between two slices of a rebuild, behind what they have written but ahead of what the
      cursor has read, is lost to the buckets: the last slice moves the cursor past it. */
  lemma MissedBetween(p: Params)
    requires Shortest(p)
    ensures var s := AfterAll(p, BUCKET,
                              Between(At(0, false, false), At(45_690, false, false), At(21_600, false, false)));
            AllRead(s) && s.rows.metrics != FullMetrics(p, BUCKET, s.positions)
  {
    ShortestFits(p);
    hide AfterAll, FullMetrics, Setting;
    assert Floor(21_600 * SECOND, BUCKET) == 21_600 * SECOND && Floor(45_690 * SECOND, BUCKET) == 45_600 * SECOND;
    BetweenRun(p, BUCKET, At(0, false, false), At(45_690, false, false), At(21_600, false, false));
  }
}

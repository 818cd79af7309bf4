/** The analysis of a stream of fixes: the loops of the program, proved to compute the visits and
    cycles that `Track` and `Cycles` describe, and the point a later analysis restarts from. */
module Analysis {
  import opened Wrappers
  import opened Track
  import opened Cycles
  import Q = Queueing

  // ---- visits ---------------------------------------------------------------------------------

  datatype Visit = Visit(enter: int, exit: int, start: nat, end: nat)

  ghost function VisitAt(p: Params, F: seq<Fix>, k: Kind, s: nat): Visit
    requires StartAt(p, F, k, s)
  {
    Visit(F[s].ts, ExitTs(p, F, k, s), s, VisitEnd(p, F, k, s))
  }

  /** The visits that start before fix `i`, in order. */
  ghost function VisitList(p: Params, F: seq<Fix>, k: Kind, i: nat): seq<Visit>
    requires i <= |F|
  {
    var s := LastStart(p, F, k, i);
    if s < 0 then [] else VisitList(p, F, k, s) + [VisitAt(p, F, k, s)]
  }

  /** Those of them that are long enough to count. */
  ghost function LongList(p: Params, F: seq<Fix>, k: Kind, i: nat): seq<Visit>
    requires i <= |F|
  {
    var s := LastLong(p, F, k, i);
    if s < 0 then [] else LongList(p, F, k, s) + [VisitAt(p, F, k, s)]
  }

  /** The visits that start before fix `i`, the last of them only as far as `i`. */
  ghost function VisitsTo(p: Params, F: seq<Fix>, k: Kind, i: nat): seq<Visit>
    requires i <= |F| && 0 < |F|
  {
    var s := LastStart(p, F, k, i);
    var e := LastIn(F, k, i) + 1;
    if s < 0 then [] else VisitList(p, F, k, s) + [Visit(F[s].ts, TimeAt(F, e), s, e)]
  }

  /** Up to a start, or the end, the last visit is whole. */
  lemma {:induction false} VisitsToStart(p: Params, F: seq<Fix>, k: Kind, a: nat)
    requires 0 < |F| && a <= |F| && (a < |F| ==> StartAt(p, F, k, a))
    ensures VisitsTo(p, F, k, a) == VisitList(p, F, k, a)
  {
    hide StartAt;
    var s := LastStart(p, F, k, a);
    if s >= 0 {
      NextStartIs(p, F, k, s + 1, a);
      VisitWhole(p, F, k, s, a);
    }
  }

  lemma VisitWhole(p: Params, F: seq<Fix>, k: Kind, s: nat, a: nat)
    requires StartAt(p, F, k, s) && s < a <= |F| && NextStart(p, F, k, s + 1) == a
    ensures VisitEnd(p, F, k, s) == LastIn(F, k, a) + 1
    ensures VisitAt(p, F, k, s) == Visit(F[s].ts, TimeAt(F, LastIn(F, k, a) + 1), s, LastIn(F, k, a) + 1)
  {
    hide StartAt, LastIn, NextStart;
  }

  lemma VisitsToSkip(p: Params, F: seq<Fix>, k: Kind, i: nat)
    requires i < |F| && !F[i].In(k)
    ensures VisitsTo(p, F, k, i + 1) == VisitsTo(p, F, k, i)
  {
    assert !StartAt(p, F, k, i);
  }

  /** A fix just after an outside fix starts a visit unless the last inside one was left less
      than `minExit` before. */
  lemma RunStart(p: Params, F: seq<Fix>, k: Kind, a: nat)
    requires Sorted(F) && a < |F| && F[a].In(k) && (a > 0 ==> !F[a-1].In(k))
    ensures var r := LastIn(F, k, a);
            StartAt(p, F, k, a) <==> (r == -1 || F[a].ts - F[r+1].ts >= p.minExit)
  {
    var r := LastIn(F, k, a);
    if r >= 0 && F[a].ts - F[r+1].ts >= p.minExit {
      assert r + 1 < a;
      forall j | 0 <= j < a && F[j].In(k)
        ensures j + 1 < a && F[a].ts - F[j+1].ts >= p.minExit
      {
        assert j <= r;
        assert j < r ==> F[j+1].ts < F[r+1].ts;
      }
    }
  }

  /** The fixes in [a, b) are all inside. */
  ghost predicate AllIn(F: seq<Fix>, k: Kind, a: nat, b: nat)
    requires b <= |F|
  {
    forall j {:trigger F[j].In(k)} :: a <= j < b ==> F[j].In(k)
  }

  /** A run of inside fixes [a, b) has no start but perhaps its first fix. */
  lemma {:induction false} RunInterior(p: Params, F: seq<Fix>, k: Kind, a: nat, b: nat)
    requires a < b <= |F| && AllIn(F, k, a, b)
    ensures LastStart(p, F, k, b) == (if StartAt(p, F, k, a) then a else LastStart(p, F, k, a))
    ensures LastIn(F, k, b) == b - 1
    decreases b - a
  {
    assert F[b-1].In(k);
    if b - 1 > a {
      assert F[b-2].In(k);
      assert !StartAt(p, F, k, b - 1);
      RunInterior(p, F, k, a, b - 1);
    }
  }

  lemma {:induction false} SomeStart(p: Params, F: seq<Fix>, k: Kind, i: nat)
    requires i <= |F| && LastIn(F, k, i) >= 0
    ensures LastStart(p, F, k, i) >= 0
  {
    FirstInsideStarts(p, F, k, LastIn(F, k, i));
  }

  /** The list after a run of inside fixes [a, b): the run joins the last visit, if that was left
      less than `minExit` before, or is a visit of its own. */
  function AddVisit(p: Params, out: seq<Visit>, enter: int, exit: int, a: nat, b: nat): seq<Visit> {
    if |out| > 0 && enter - out[|out|-1].exit < p.minExit then
      out[..|out|-1] + [out[|out|-1].(exit := exit, end := b)]
    else
      out + [Visit(enter, exit, a, b)]
  }

  /** The list as far as a fix, taken apart at its last visit. */
  lemma VisitsToLast(p: Params, F: seq<Fix>, k: Kind, i: nat)
    requires 0 < |F| && i <= |F|
    ensures LastStart(p, F, k, i) < 0 ==> VisitsTo(p, F, k, i) == []
    ensures var s := LastStart(p, F, k, i); var out := VisitsTo(p, F, k, i); var e := LastIn(F, k, i) + 1;
            s >= 0 ==> && |out| > 0
                       && out[..|out|-1] == VisitList(p, F, k, s)
                       && out[|out|-1] == Visit(F[s].ts, TimeAt(F, e), s, e)
  {
    hide StartAt, LastIn, LastStart, VisitList;
    var s := LastStart(p, F, k, i);
    if s >= 0 {
      var out := VisitsTo(p, F, k, i);
      assert out[..|out|-1] == VisitList(p, F, k, s);
    }
  }

  /** Takes the run [a, b) in, once its starts are known: it joins the last visit, or starts one. */
  lemma {:induction false} VisitsToTake(p: Params, F: seq<Fix>, k: Kind, a: nat, b: nat)
    requires a < b <= |F| && LastIn(F, k, b) == b - 1
    requires LastStart(p, F, k, b) == (if StartAt(p, F, k, a) then a else LastStart(p, F, k, a))
    requires var r := LastIn(F, k, a);
             && (r >= 0 <==> LastStart(p, F, k, a) >= 0)
             && (StartAt(p, F, k, a) <==> (r == -1 || F[a].ts - F[r+1].ts >= p.minExit))
    ensures VisitsTo(p, F, k, b) == AddVisit(p, VisitsTo(p, F, k, a), F[a].ts, TimeAt(F, b), a, b)
  {
    hide *;
    VisitsToLast(p, F, k, a);
    VisitsToLast(p, F, k, b);
    RunExit(F, k, a);
    var out, next := VisitsTo(p, F, k, a), VisitsTo(p, F, k, b);
    Added(p, out, F[a].ts, TimeAt(F, b), a, b);
    SplitLast(next);
    if StartAt(p, F, k, a) {
      VisitsToStart(p, F, k, a);
      assert next == out + [Visit(F[a].ts, TimeAt(F, b), a, b)];
    } else {
      assert next == out[..|out|-1] + [Visit(out[|out|-1].enter, TimeAt(F, b), out[|out|-1].start, b)];
    }
  }

  /** What a run adds, by cases. */
  lemma Added(p: Params, out: seq<Visit>, enter: int, exit: int, a: nat, b: nat)
    ensures |out| > 0 && enter - out[|out|-1].exit < p.minExit ==>
      AddVisit(p, out, enter, exit, a, b) == out[..|out|-1] + [Visit(out[|out|-1].enter, exit, out[|out|-1].start, b)]
    ensures !(|out| > 0 && enter - out[|out|-1].exit < p.minExit) ==>
      AddVisit(p, out, enter, exit, a, b) == out + [Visit(enter, exit, a, b)]
  {
  }

  /** The fix after the last inside one, before fix `a`, is at or before it. */
  lemma RunExit(F: seq<Fix>, k: Kind, a: nat)
    requires a < |F|
    ensures LastIn(F, k, a) + 1 <= a && TimeAt(F, LastIn(F, k, a) + 1) == F[LastIn(F, k, a) + 1].ts
  {
  }

  lemma SplitLast(out: seq<Visit>)
    ensures |out| > 0 ==> out == out[..|out|-1] + [out[|out|-1]]
  {
  }

  lemma {:induction false} VisitsToRun(p: Params, F: seq<Fix>, k: Kind, a: nat, b: nat)
    requires Sorted(F) && a < b <= |F| && (a > 0 ==> !F[a-1].In(k))
    requires AllIn(F, k, a, b)
    ensures VisitsTo(p, F, k, b) == AddVisit(p, VisitsTo(p, F, k, a), F[a].ts, TimeAt(F, b), a, b)
  {
    hide StartAt, VisitsTo, AddVisit, LastStart, LastIn;
    assert F[a].In(k);
    RunStart(p, F, k, a);
    RunInterior(p, F, k, a, b);
    if LastIn(F, k, a) >= 0 {
      SomeStart(p, F, k, a);
    } else {
      NoStart(p, F, k, a);
    }
    VisitsToTake(p, F, k, a, b);
  }

  lemma {:induction false} NoStart(p: Params, F: seq<Fix>, k: Kind, i: nat)
    requires i <= |F| && LastIn(F, k, i) < 0
    ensures LastStart(p, F, k, i) < 0
  {
  }

  /** One run of inside fixes, from `start`: its end. */
  method RunEnd(F: seq<Fix>, k: Kind, start: nat) returns (i: nat)
    requires start < |F| && F[start].In(k)
    ensures start < i <= |F| && (i < |F| ==> !F[i].In(k))
    ensures AllIn(F, k, start, i)
  {
    i := start + 1;
    while i < |F| && F[i].In(k)
      invariant start < i <= |F|
      invariant AllIn(F, k, start, i)
    {
      i := i + 1;
    }
  }

  lemma ExitTime(F: seq<Fix>, i: nat)
    requires 0 < i <= |F|
    ensures TimeAt(F, i) == if i < |F| then F[i].ts else F[i-1].ts
  {
  }

  /** Runs inside the zone, as visits: runs less than `minExit` apart are one. */
  method Visits(p: Params, F: seq<Fix>, k: Kind) returns (out: seq<Visit>)
    requires Sorted(F)
    ensures out == VisitList(p, F, k, |F|)
  {
    out := [];
    if |F| == 0 {
      return;
    }
    VisitsToNone(p, F, k);
    VisitsToStart(p, F, k, |F|);
    hide *;
    var i := 0;
    while i < |F|
      invariant 0 <= i <= |F| && (0 < i < |F| && F[i].In(k) ==> !F[i-1].In(k))
      invariant out == VisitsTo(p, F, k, i)
      decreases |F| - i
    {
      if F[i].In(k) {
        i, out := TakeRun(p, F, k, i, out);
      } else {
        VisitsToSkip(p, F, k, i);
        i := i + 1;
      }
    }
  }

  /** One run, from `start`, into the list. */
  method TakeRun(p: Params, F: seq<Fix>, k: Kind, start: nat, out: seq<Visit>) returns (i: nat, next: seq<Visit>)
    requires Sorted(F) && start < |F| && F[start].In(k) && (start > 0 ==> !F[start-1].In(k))
    requires out == VisitsTo(p, F, k, start)
    ensures start < i <= |F| && (i < |F| ==> !F[i].In(k)) && next == VisitsTo(p, F, k, i)
  {
    hide *;
    i := RunEnd(F, k, start);
    VisitsToRun(p, F, k, start, i);
    ExitTime(F, i);
    var exit := if i < |F| then F[i].ts else F[i-1].ts;
    next := AddVisit(p, out, F[start].ts, exit, start, i);
  }

  lemma VisitsToNone(p: Params, F: seq<Fix>, k: Kind)
    requires 0 < |F|
    ensures VisitsTo(p, F, k, 0) == []
  {
  }

  // ---- reading the lists ----------------------------------------------------------------------

  /** The `m`-th of the visits before `i`, and the ones before it. */
  lemma {:induction false} VisitListAt(p: Params, F: seq<Fix>, k: Kind, i: nat, m: nat)
    requires i <= |F| && m < |VisitList(p, F, k, i)|
    ensures var L := VisitList(p, F, k, i); var s := L[m].start;
            s < i && StartAt(p, F, k, s) && L[m] == VisitAt(p, F, k, s) && L[..m] == VisitList(p, F, k, s)
    ensures var L := VisitList(p, F, k, i); var next := if m + 1 < |L| then L[m+1].start else i;
            next <= |F| && LastStart(p, F, k, next) == L[m].start
    decreases i
  {
    hide StartAt, VisitEnd;
    var L := VisitList(p, F, k, i);
    var s := LastStart(p, F, k, i);
    var init := VisitList(p, F, k, s);
    if m < |L| - 1 {
      VisitListAt(p, F, k, s, m);
      assert L[..m] == init[..m];
    } else {
      assert L[..m] == init;
    }
  }

  lemma {:induction false} LongListAt(p: Params, F: seq<Fix>, k: Kind, i: nat, m: nat)
    requires i <= |F| && m < |LongList(p, F, k, i)|
    ensures var L := LongList(p, F, k, i); var s := L[m].start;
            s < i && Long(p, F, k, s) && L[m] == VisitAt(p, F, k, s) && L[..m] == LongList(p, F, k, s)
    ensures var L := LongList(p, F, k, i); var next := if m + 1 < |L| then L[m+1].start else i;
            next <= |F| && LastLong(p, F, k, next) == L[m].start
    decreases i
  {
    hide StartAt, VisitEnd;
    var L := LongList(p, F, k, i);
    var s := LastLong(p, F, k, i);
    var init := LongList(p, F, k, s);
    if m < |L| - 1 {
      LongListAt(p, F, k, s, m);
      assert L[..m] == init[..m];
    } else {
      assert L[..m] == init;
    }
  }

  /** The visits that count before `i`, from the last start before `i` on. */
  lemma {:induction false} LongListStep(p: Params, F: seq<Fix>, k: Kind, i: nat)
    requires i <= |F|
    ensures var s := LastStart(p, F, k, i);
            LongList(p, F, k, i) ==
              if s < 0 then []
              else if Long(p, F, k, s) then LongList(p, F, k, s) + [VisitAt(p, F, k, s)]
              else LongList(p, F, k, s)
  {
    LastLongStep(p, F, k, i);
  }

  lemma {:induction false} LastLongStep(p: Params, F: seq<Fix>, k: Kind, i: nat)
    requires i <= |F|
    ensures var s := LastStart(p, F, k, i);
            LastLong(p, F, k, i) == if s < 0 then -1 else if Long(p, F, k, s) then s else LastLong(p, F, k, s)
  {
    hide StartAt, VisitEnd;
    if i > 0 && !StartAt(p, F, k, i - 1) {
      LastLongStep(p, F, k, i - 1);
    }
  }

  /** The visits long enough to count, out of all of them. */
  method LongEnough(p: Params, F: seq<Fix>, k: Kind, all: seq<Visit>) returns (out: seq<Visit>)
    requires all == VisitList(p, F, k, |F|)
    ensures out == LongList(p, F, k, |F|)
  {
    hide StartAt, VisitEnd, VisitList, LongList;
    out := [];
    ghost var at := if |all| > 0 then all[0].start else |F|;
    LongListFirst(p, F, k);
    for m := 0 to |all|
      invariant at == (if m < |all| then all[m].start else |F|)
      invariant at <= |F| && out == LongList(p, F, k, at)
    {
      var v := all[m];
      VisitListAt(p, F, k, |F|, m);
      at := if m + 1 < |all| then all[m+1].start else |F|;
      if m + 1 < |all| {
        VisitListAt(p, F, k, |F|, m + 1);
      }
      LongListStep(p, F, k, at);
      if v.exit - v.enter >= p.minVisit {
        out := out + [v];
      }
    }
  }

  lemma LongListFirst(p: Params, F: seq<Fix>, k: Kind)
    ensures var all := VisitList(p, F, k, |F|); var at := if |all| > 0 then all[0].start else |F|;
            at <= |F| && LongList(p, F, k, at) == []
  {
    var all := VisitList(p, F, k, |F|);
    if |all| > 0 {
      VisitListAt(p, F, k, |F|, 0);
      assert VisitList(p, F, k, all[0].start) == [];
      LongListStep(p, F, k, all[0].start);
    } else {
      LongListStep(p, F, k, |F|);
    }
  }

  // ---- cycles ---------------------------------------------------------------------------------

  /** Whether a visit starting at fix `i` may open a cycle: not when it began in the lead-in, nor
      at the very start of a stream that begins mid-track. */
  predicate CanOpen(F: seq<Fix>, known: bool, from: Option<int>, i: nat)
    requires i < |F|
  {
    (from.Some? ==> F[i].ts >= from.value) && (i > 0 || known)
  }

  ghost predicate Opens(p: Params, F: seq<Fix>, known: bool, from: Option<int>, i: nat)
    requires i < |F|
  {
    CanOpen(F, known, from, i) && CycleAt(p, F, i).Some?
  }

  /** The cycles opened before fix `i`, in order. */
  ghost function CycleList(p: Params, F: seq<Fix>, known: bool, from: Option<int>, i: nat): seq<Cycle>
    requires i <= |F|
  {
    if i == 0 then []
    else CycleList(p, F, known, from, i - 1) +
         (if Opens(p, F, known, from, i - 1) then [CycleAt(p, F, i - 1).value] else [])
  }

  /** The list holds exactly the cycles of the fixes that may open one. */
  lemma {:induction false} CycleListIs(p: Params, F: seq<Fix>, known: bool, from: Option<int>, i: nat, c: Cycle)
    requires i <= |F|
    ensures c in CycleList(p, F, known, from, i) <==>
      exists s :: 0 <= s < i && Opens(p, F, known, from, s) && CycleAt(p, F, s).value == c
  {
    hide CycleAt;
    if i > 0 {
      CycleListIs(p, F, known, from, i - 1, c);
    }
  }

  lemma {:induction false} NoCyclesBetween(p: Params, F: seq<Fix>, known: bool, from: Option<int>, i: nat, j: nat)
    requires i <= j <= |F| && forall s :: i <= s < j ==> !Long(p, F, Load, s)
    ensures CycleList(p, F, known, from, i) == CycleList(p, F, known, from, j)
    decreases j - i
  {
    hide Long;
    if i < j {
      NoCyclesBetween(p, F, known, from, i, j - 1);
    }
  }

  /** The dump visit between this load visit's end and the next load visit's entry: the first of
      `dumps` to begin there. */
  method FirstBetween(p: Params, F: seq<Fix>, dumps: seq<Visit>, exit: int, e: nat, n: nat) returns (dv: Option<Visit>)
    requires Sorted(F) && dumps == LongList(p, F, Dump, |F|)
    requires e <= n < |F| && exit == F[e].ts
    ensures var d := NextLong(p, F, Dump, e);
            dv == if d < n then Some(VisitAt(p, F, Dump, d)) else None
  {
    hide StartAt, VisitEnd, LongList, NextLong;
    dv := None;
    ghost var at := if |dumps| > 0 then dumps[0].start else |F|;
    GapInList(p, F, Dump, 0);
    for m := 0 to |dumps|
      invariant at == (if m < |dumps| then dumps[m].start else |F|)
      invariant at <= |F| && dv == None
      invariant forall s :: e <= s < at ==> !Long(p, F, Dump, s) || s >= n
    {
      LongListAt(p, F, Dump, |F|, m);
      var d := dumps[m];
      if exit <= d.enter && d.enter < F[n].ts {
        dv := Some(d);
        NextLongIs(p, F, Dump, e, d.start);
        return;
      }
      assert d.start < e || d.start >= n;
      at := if m + 1 < |dumps| then dumps[m+1].start else |F|;
      GapInList(p, F, Dump, m + 1);
    }
    NextLongAtLeast(p, F, Dump, e, n);
  }

  /** No visit that counts starts between the `m`-th and the one before it. */
  lemma GapInList(p: Params, F: seq<Fix>, k: Kind, m: nat)
    requires m <= |LongList(p, F, k, |F|)|
    ensures var L := LongList(p, F, k, |F|); var at := if m < |L| then L[m].start else |F|;
            at <= |F| && forall s :: (if m > 0 then L[m-1].start else -1) < s < at ==> !Long(p, F, k, s)
  {
    hide StartAt, VisitEnd, LongList, Long, LastLong, VisitAt;
    var L := LongList(p, F, k, |F|);
    if m > 0 {
      LongListAt(p, F, k, |F|, m - 1);
    } else if |L| > 0 {
      LongListAt(p, F, k, |F|, 0);
      LongListEmpty(p, F, k, L[0].start);
    } else {
      LongListEmpty(p, F, k, |F|);
    }
  }

  lemma LongListEmpty(p: Params, F: seq<Fix>, k: Kind, i: nat)
    requires i <= |F| && LongList(p, F, k, i) == []
    ensures LastLong(p, F, k, i) == -1
  {
  }

  lemma NextLongIs(p: Params, F: seq<Fix>, k: Kind, i: nat, n: nat)
    requires i <= n <= |F| && (n < |F| ==> Long(p, F, k, n))
    requires forall s :: i <= s < n ==> !Long(p, F, k, s)
    ensures NextLong(p, F, k, i) == n
  {
  }

  lemma NextLongAtLeast(p: Params, F: seq<Fix>, k: Kind, i: nat, n: nat)
    requires i <= n <= |F|
    requires forall s :: i <= s < n ==> !Long(p, F, k, s)
    ensures NextLong(p, F, k, i) >= n
  {
  }

  /** Before the first visit that counts there is no cycle. */
  lemma CyclesFirst(p: Params, F: seq<Fix>, known: bool, from: Option<int>, loads: seq<Visit>)
    requires loads == LongList(p, F, Load, |F|)
    ensures var at := if |loads| > 0 then loads[0].start else |F|;
            at <= |F| && CycleList(p, F, known, from, at) == []
  {
    hide StartAt, VisitEnd, LongList, CycleAt, CycleList;
    GapInList(p, F, Load, 0);
    NoCyclesAtZero(p, F, known, from);
    NoCyclesBetween(p, F, known, from, 0, if |loads| > 0 then loads[0].start else |F|);
  }

  /** From one visit that counts to the next, at most the one cycle it opens is added. */
  lemma CyclesNext(p: Params, F: seq<Fix>, known: bool, from: Option<int>, loads: seq<Visit>, m: nat)
    requires loads == LongList(p, F, Load, |F|) && m < |loads|
    ensures var s := loads[m].start; var next := if m + 1 < |loads| then loads[m+1].start else |F|;
            && s < next <= |F| && NextLong(p, F, Load, s + 1) == next
            && Long(p, F, Load, s) && loads[m] == VisitAt(p, F, Load, s)
            && CycleList(p, F, known, from, next) ==
                CycleList(p, F, known, from, s) + (if Opens(p, F, known, from, s) then [CycleAt(p, F, s).value] else [])
  {
    hide StartAt, VisitEnd, LongList, CycleAt, CycleList;
    LongListAt(p, F, Load, |F|, m);
    GapInList(p, F, Load, m + 1);
    var s := loads[m].start;
    var next := if m + 1 < |loads| then loads[m+1].start else |F|;
    if m + 1 < |loads| {
      LongListAt(p, F, Load, |F|, m + 1);
    }
    NextLongIs(p, F, Load, s + 1, next);
    CycleListStep(p, F, known, from, s);
    NoCyclesBetween(p, F, known, from, s + 1, next);
  }

  /** The cycle loop over consecutive load visits. */
  method CycleLoop(p: Params, F: seq<Fix>, known: bool, from: Option<int>, loads: seq<Visit>, dumps: seq<Visit>)
    returns (cycles: seq<Cycle>)
    requires Sorted(F) && loads == LongList(p, F, Load, |F|) && dumps == LongList(p, F, Dump, |F|)
    ensures cycles == CycleList(p, F, known, from, |F|)
  {
    hide StartAt, VisitEnd, LongList, CycleAt, CycleList, NextLong;
    cycles := [];
    CyclesFirst(p, F, known, from, loads);
    if |loads| == 0 {
      return;
    }
    for idx := 0 to |loads| - 1
      invariant loads[idx].start <= |F| && cycles == CycleList(p, F, known, from, loads[idx].start)
    {
      CyclesNext(p, F, known, from, loads, idx);
      CyclesNext(p, F, known, from, loads, idx + 1);
      var c := OneCycle(p, F, known, from, loads[idx], loads[idx+1], dumps);
      if c.Some? {
        cycles := cycles + [c.value];
      }
    }
    CyclesNext(p, F, known, from, loads, |loads| - 1);
    NoCycleAtLast(p, F, loads[|loads|-1].start);
  }

  lemma NoCyclesAtZero(p: Params, F: seq<Fix>, known: bool, from: Option<int>)
    ensures CycleList(p, F, known, from, 0) == []
  {
  }

  lemma CycleListStep(p: Params, F: seq<Fix>, known: bool, from: Option<int>, i: nat)
    requires i < |F|
    ensures CycleList(p, F, known, from, i + 1) ==
      CycleList(p, F, known, from, i) + (if Opens(p, F, known, from, i) then [CycleAt(p, F, i).value] else [])
  {
  }

  lemma NoCycleAtLast(p: Params, F: seq<Fix>, s: nat)
    requires s < |F| && NextLong(p, F, Load, s + 1) == |F|
    ensures CycleAt(p, F, s).None?
  {
  }

  /** One turn of the loop: the cycle the visit `lv` opens, when it may and `next` closes it. */
  method OneCycle(p: Params, F: seq<Fix>, known: bool, from: Option<int>, lv: Visit, next: Visit, dumps: seq<Visit>)
    returns (c: Option<Cycle>)
    requires Sorted(F) && dumps == LongList(p, F, Dump, |F|)
    requires Long(p, F, Load, lv.start) && lv == VisitAt(p, F, Load, lv.start)
    requires Long(p, F, Load, next.start) && next == VisitAt(p, F, Load, next.start)
    requires NextLong(p, F, Load, lv.start + 1) == next.start
    ensures c == if CanOpen(F, known, from, lv.start) then CycleAt(p, F, lv.start) else None
  {
    hide StartAt, VisitEnd, LongList, NextLong, Queue, CreditedZone, Sorted, Long;
    NextLongAfterEnd(p, F, lv.start);
    if !((from.None? || lv.enter >= from.value) && (lv.start > 0 || known)) {
      return None;
    }
    if p.TooLong(next.enter - lv.enter) {
      return None;
    }
    var dv := FirstBetween(p, F, dumps, lv.exit, lv.end, next.start);
    if dv.None? {
      return None;
    }
    var d := dv.value;
    var queue := Q.QueueSeconds(p, F[lv.start..lv.end], lv.exit);
    c := Some(Cycle(lv.enter, next.enter, next.enter - lv.enter, queue, Max0(lv.exit - lv.enter - queue),
                    d.enter - lv.exit, d.exit - d.enter, next.enter - d.exit,
                    CreditedZone(F[lv.start..lv.end], Load), CreditedZone(F[d.start..d.end], Dump)));
  }

  // ---- where a later analysis restarts --------------------------------------------------------

  /** The restart point: a time, whether a load visit starting there is known to start there, and
      whether the stream's last fix is still inside that visit. */
  datatype Resume = Resume(ts: int, entryKnown: bool, inside: bool)

  /** The last visit, before `i`, that counts and may open a cycle; or -1. */
  ghost function LastOpener(p: Params, F: seq<Fix>, known: bool, from: Option<int>, i: nat): (r: int)
    requires i <= |F|
    ensures -1 <= r < i
    ensures r >= 0 ==> Long(p, F, Load, r) && CanOpen(F, known, from, r)
    ensures forall j :: r < j < i ==> !(Long(p, F, Load, j) && CanOpen(F, known, from, j))
  {
    if i == 0 then -1
    else if Long(p, F, Load, i - 1) && CanOpen(F, known, from, i - 1) then i - 1
    else LastOpener(p, F, known, from, i - 1)
  }

  /** The last load visit, if a later fix may still extend it; or -1. */
  ghost function Tail(p: Params, F: seq<Fix>): (r: int)
    ensures -1 <= r < |F| && (r >= 0 ==> StartAt(p, F, Load, r))
  {
    var r := LastStart(p, F, Load, |F|);
    if r >= 0 && (F[|F|-1].In(Load) || F[|F|-1].ts - ExitTs(p, F, Load, r) < p.minExit) then r else -1
  }

  /** ... if it is also still too short to count; or -1. */
  ghost function Pending(p: Params, F: seq<Fix>): (r: int)
    ensures -1 <= r < |F| && (r >= 0 ==> StartAt(p, F, Load, r) && !Long(p, F, Load, r))
  {
    var r := Tail(p, F);
    if r >= 0 && !Long(p, F, Load, r) then r else -1
  }

  /** The cycle opened at `o` can still be closed by fixes to come. */
  ghost predicate MayStillClose(p: Params, F: seq<Fix>, o: nat)
    requires o < |F|
  {
    || p.cap.None?
    || F[|F|-1].ts - F[o].ts < p.cap.value
    || (Pending(p, F) >= 0 && F[Pending(p, F)].ts - F[o].ts <= p.cap.value)
  }

  /** The fix to restart from when a load visit anchors the restart; or -1. */
  ghost function Anchor(p: Params, F: seq<Fix>, known: bool, from: Option<int>): (r: int)
    ensures -1 <= r < |F| && (r >= 0 ==> StartAt(p, F, Load, r) && CanOpen(F, known, from, r))
  {
    var o := LastOpener(p, F, known, from, |F|);
    var q := Pending(p, F);
    if o >= 0 && MayStillClose(p, F, o) then o
    else if q >= 0 && CanOpen(F, known, from, q) then q
    else -1
  }

  ghost function ResumeOf(p: Params, F: seq<Fix>, known: bool, from: Option<int>): Resume
    requires 0 < |F|
  {
    var a := Anchor(p, F, known, from);
    if a < 0 then Resume(F[|F|-1].ts, false, false)
    else Resume(F[a].ts, true, F[|F|-1].In(Load) && LastStart(p, F, Load, |F|) == a)
  }

  method LastOpenerOf(p: Params, F: seq<Fix>, known: bool, from: Option<int>,
                      loads: seq<Visit>) returns (o: Option<Visit>)
    requires loads == LongList(p, F, Load, |F|)
    ensures var r := LastOpener(p, F, known, from, |F|);
            o == if r < 0 then None else Some(VisitAt(p, F, Load, r))
  {
    hide StartAt, VisitEnd, LongList;
    o := None;
    var m := |loads|;
    ghost var at := |F|;
    GapInList(p, F, Load, |loads|);
    while m > 0
      invariant 0 <= m <= |loads|
      invariant at == (if m < |loads| then loads[m].start else |F|)
      invariant at <= |F| && forall j :: at <= j < |F| ==> !(Long(p, F, Load, j) && CanOpen(F, known, from, j))
    {
      GapInList(p, F, Load, m);
      m := m - 1;
      LongListAt(p, F, Load, |F|, m);
      var v := loads[m];
      at := v.start;
      if (from.None? || v.enter >= from.value) && (v.start > 0 || known) {
        o := Some(v);
        LastOpenerIs(p, F, known, from, v.start);
        return;
      }
    }
    GapInList(p, F, Load, 0);
  }

  lemma {:induction false} LastOpenerIs(p: Params, F: seq<Fix>, known: bool, from: Option<int>, r: nat)
    requires r < |F| && Long(p, F, Load, r) && CanOpen(F, known, from, r)
    requires forall j :: r < j < |F| ==> !(Long(p, F, Load, j) && CanOpen(F, known, from, j))
    ensures LastOpener(p, F, known, from, |F|) == r
  {
  }

  /** The last load visit, if a later fix may still extend it and it is too short to count. */
  method PendingOf(p: Params, F: seq<Fix>, runs: seq<Visit>) returns (pending: Option<Visit>)
    requires 0 < |F| && runs == VisitList(p, F, Load, |F|)
    ensures var q := Pending(p, F);
            pending == if q < 0 then None else Some(VisitAt(p, F, Load, q))
  {
    hide StartAt, VisitEnd;
    if |runs| == 0 {
      return None;
    }
    var tail := runs[|runs|-1];
    LastOfList(p, F, Load);
    hide VisitList;
    var last := F[|F|-1];
    if (last.In(Load) || last.ts - tail.exit < p.minExit) && tail.exit - tail.enter < p.minVisit {
      pending := Some(tail);
    } else {
      pending := None;
    }
  }

  lemma LastOfList(p: Params, F: seq<Fix>, k: Kind)
    ensures var L := VisitList(p, F, k, |F|); var s := LastStart(p, F, k, |F|);
            if s < 0 then L == [] else |L| > 0 && L[|L|-1] == VisitAt(p, F, k, s)
  {
  }

  method ResumePoint(p: Params, F: seq<Fix>, known: bool, from: Option<int>, runs: seq<Visit>, loads: seq<Visit>)
    returns (r: Resume)
    requires Sorted(F) && 0 < |F|
    requires runs == VisitList(p, F, Load, |F|) && loads == LongList(p, F, Load, |F|)
    ensures r == ResumeOf(p, F, known, from)
  {
    var last := F[|F|-1];
    var opener := LastOpenerOf(p, F, known, from, loads);
    var pending := PendingOf(p, F, runs);
    LastOfList(p, F, Load);
    hide StartAt, VisitEnd, LongList, VisitList, LastOpener, Pending, LastStart;
    ghost var a := Anchor(p, F, known, from);
    if opener.Some? && (p.cap.None? || last.ts - opener.value.enter < p.cap.value ||
                        (pending.Some? && pending.value.enter - opener.value.enter <= p.cap.value)) {
      r := Resume(opener.value.enter, true, false);
      assert a == opener.value.start;
    } else if pending.Some? && CanOpen(F, known, from, pending.value.start) {
      r := Resume(pending.value.enter, true, false);
      assert a == pending.value.start;
    } else {
      r := Resume(last.ts, false, false);
      assert a == -1;
    }
    if r.entryKnown && last.In(Load) && |runs| > 0 && runs[|runs|-1].enter == r.ts {
      r := r.(inside := true);
    }
  }

  /** Cycles in a stream, and the point a later recompute must restart from. */
  method Analyse(p: Params, F: seq<Fix>, known: bool, from: Option<int>)
    returns (cycles: seq<Cycle>, resume: Option<Resume>)
    requires Sorted(F) && 0 < p.minExit
    ensures cycles == CycleList(p, F, known, from, |F|)
    ensures resume == if |F| == 0 then None else Some(ResumeOf(p, F, known, from))
  {
    hide StartAt, VisitEnd, LongList, VisitList, CycleList;
    if |F| == 0 {
      NoCyclesAtZero(p, F, known, from);
      return [], None;
    }
    var runs := Visits(p, F, Load);
    var loads := LongEnough(p, F, Load, runs);
    var dumpRuns := Visits(p, F, Dump);
    var dumps := LongEnough(p, F, Dump, dumpRuns);
    cycles := CycleLoop(p, F, known, from, loads, dumps);
    var r := ResumePoint(p, F, known, from, runs, loads);
    resume := Some(r);
  }
}

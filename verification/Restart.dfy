/** Restarting the analysis of a track part-way gives what a whole analysis gives.

    Three facts are proved about the cycles and the restart point of a track: they can be rebuilt
    from any window with its lead-in; the cycles before the restart point do not change when
    fixes follow; and those well before a late fix do not change when it is inserted. */
module Restart {
  import opened Wrappers
  import opened Track
  import opened Cycles
  import opened Analysis
  import opened Locality

  /** What `analyse_cycles` returns for a whole track. */
  ghost function Table(p: Params, F: seq<Fix>): set<Cycle> {
    set s | 0 <= s < |F| && CycleAt(p, F, s).Some? :: CycleAt(p, F, s).value
  }

  ghost function FullResume(p: Params, F: seq<Fix>): Resume
    requires 0 < |F|
  {
    ResumeOf(p, F, true, None)
  }

  /** No dump visit is under way when a load visit that counts begins. */
  ghost predicate Clear(p: Params, F: seq<Fix>) {
    forall v :: Long(p, F, Load, v) ==> ClearAt(p, F, Dump, v)
  }

  /** The tracks open the same cycles before time `c`. */
  ghost predicate SameBefore(p: Params, F: seq<Fix>, G: seq<Fix>, c: int) {
    forall y: Cycle :: y.start < c ==> (y in Table(p, F) <==> y in Table(p, G))
  }

  lemma CycleStart(p: Params, F: seq<Fix>, s: nat)
    requires s < |F| && CycleAt(p, F, s).Some?
    ensures CycleAt(p, F, s).value.start == F[s].ts
  {
  }

  // ---- a window -------------------------------------------------------------------------------

  /** A cycle is the same in a window as in the whole track. */
  lemma {:induction false} CutCycle(p: Params, F: seq<Fix>, lo: nat, c: int, W: seq<Fix>, s: nat)
    requires Sorted(F) && Cut(F, lo, W) && LeadsIn(p, F, lo, c) && p.Ok() && After(F, lo, c, s) && s < |F|
    ensures CycleAt(p, W, s - lo) == CycleAt(p, F, s)
  {
    hide StartAt, VisitEnd, CycleAt, NextLong, Long;
    CutLong(p, F, lo, c, W, s);
    if Long(p, F, Load, s) {
      CutCycleLong(p, F, lo, c, W, s);
    } else {
      NotLongNoCycle(p, F, s);
      NotLongNoCycle(p, W, s - lo);
    }
  }

  lemma {:induction false} CutLong(p: Params, F: seq<Fix>, lo: nat, c: int, W: seq<Fix>, s: nat)
    requires Sorted(F) && Cut(F, lo, W) && LeadsIn(p, F, lo, c) && p.Ok() && After(F, lo, c, s) && s < |F|
    ensures Long(p, W, Load, s - lo) == Long(p, F, Load, s)
  {
    CutStart(p, F, lo, c, W, Load, s);
    hide StartAt, VisitEnd;
    if StartAt(p, F, Load, s) {
      CutVisit(p, F, lo, c, W, Load, s);
    }
  }

  lemma {:induction false} CutCycleLong(p: Params, F: seq<Fix>, lo: nat, c: int, W: seq<Fix>, s: nat)
    requires Sorted(F) && Cut(F, lo, W) && LeadsIn(p, F, lo, c) && p.Ok() && After(F, lo, c, s) && s < |F|
    requires Long(p, F, Load, s) && Long(p, W, Load, s - lo)
    ensures CycleAt(p, W, s - lo) == CycleAt(p, F, s)
  {
    hide StartAt, VisitEnd, CycleAt, NextLong, Long;
    LongStarts(p, F, Load, s);
    CutVisit(p, F, lo, c, W, Load, s);
    CutNextLong(p, F, lo, c, W, Load, s + 1);
    var n := NextLong(p, F, Load, s + 1);
    assert F[s] == W[s - lo] && (n < |F| ==> F[n] == W[n - lo]);
    if n < |F| && !p.TooLong(F[n].ts - F[s].ts) {
      NextLongAfterEnd(p, F, s);
      CutClosed(p, F, lo, c, W, s, VisitEnd(p, F, Load, s), n);
    } else {
      NotClosedNoCycle(p, F, s);
      NotClosedNoCycle(p, W, s - lo);
    }
  }

  lemma NotLongNoCycle(p: Params, F: seq<Fix>, s: nat)
    requires s < |F| && !Long(p, F, Load, s)
    ensures CycleAt(p, F, s) == None
  {
  }

  lemma NotClosedNoCycle(p: Params, F: seq<Fix>, s: nat)
    requires s < |F|
    requires var n := NextLong(p, F, Load, s + 1); n == |F| || p.TooLong(F[n].ts - F[s].ts)
    ensures CycleAt(p, F, s) == None
  {
  }

  /** A visit's fixes and exit are the same in a window. */
  lemma CutSlice(F: seq<Fix>, lo: nat, W: seq<Fix>, a: nat, b: nat)
    requires Cut(F, lo, W) && lo <= a < b <= |F|
    ensures W[a - lo..b - lo] == F[a..b] && TimeAt(W, b - lo) == TimeAt(F, b)
  {
    assert F[|F|-1] == W[|W|-1];
    assert b < |F| ==> F[b] == W[b - lo];
  }

  lemma CutCycleFrom(p: Params, F: seq<Fix>, lo: nat, W: seq<Fix>, s: nat, e: nat, d: nat, de: nat, n: nat)
    requires Cut(F, lo, W) && lo <= s < e <= d < de <= |F| && d < n < |F|
    ensures CycleFrom(p, W, s - lo, e - lo, d - lo, de - lo, n - lo) == CycleFrom(p, F, s, e, d, de, n)
  {
    hide MakeCycle, TimeAt;
    CutSlice(F, lo, W, s, e);
    CutSlice(F, lo, W, d, de);
    assert F[e] == W[e - lo] && F[n] == W[n - lo];
  }

  lemma CutDump(p: Params, F: seq<Fix>, lo: nat, c: int, W: seq<Fix>, d: nat)
    requires Sorted(F) && Cut(F, lo, W) && LeadsIn(p, F, lo, c) && p.Ok() && After(F, lo, c, d)
    requires Long(p, F, Dump, d)
    ensures StartAt(p, F, Dump, d) && StartAt(p, W, Dump, d - lo)
    ensures VisitEnd(p, W, Dump, d - lo) == VisitEnd(p, F, Dump, d) - lo
  {
    LongStarts(p, F, Dump, d);
    CutVisit(p, F, lo, c, W, Dump, d);
  }

  /** The visit starting at `s` ends before fix `e` and the cycle it opens, if any, closes at `n`. */
  ghost predicate Closes(p: Params, F: seq<Fix>, s: nat, e: nat, n: nat) {
    && s < n < |F| && Long(p, F, Load, s) && VisitEnd(p, F, Load, s) == e <= n
    && NextLong(p, F, Load, s + 1) == n && !p.TooLong(F[n].ts - F[s].ts)
  }

  lemma {:induction false} CutClosed(p: Params, F: seq<Fix>, lo: nat, c: int, W: seq<Fix>, s: nat, e: nat, n: nat)
    requires Sorted(F) && Cut(F, lo, W) && LeadsIn(p, F, lo, c) && p.Ok() && After(F, lo, c, s)
    requires Closes(p, F, s, e, n) && lo <= s < e && Closes(p, W, s - lo, e - lo, n - lo)
    ensures CycleAt(p, W, s - lo) == CycleAt(p, F, s)
  {
    hide StartAt, Long, VisitEnd, NextLong, NextStart, CycleFrom, CycleAt;
    CutNextLong(p, F, lo, c, W, Dump, e);
    var d := NextLong(p, F, Dump, e);
    CycleAtIs(p, F, s, e, d, n);
    CycleAtIs(p, W, s - lo, e - lo, d - lo, n - lo);
    if d < n {
      CutDump(p, F, lo, c, W, d);
      CutCycleFrom(p, F, lo, W, s, e, d, VisitEnd(p, F, Dump, d), n);
    }
  }

  lemma LongStarts(p: Params, F: seq<Fix>, k: Kind, s: int)
    requires Long(p, F, k, s)
    ensures StartAt(p, F, k, s)
  {
  }

  // ---- a shared prefix ------------------------------------------------------------------------

  /** The tracks have the same first `n` fixes, and go on, if they do, at or after time `t`. */
  ghost predicate Parts(F: seq<Fix>, G: seq<Fix>, n: nat, t: int) {
    Sorted(F) && Sorted(G) && Share(F, G, n) && (n < |F| ==> F[n].ts >= t) && (n < |G| ==> G[n].ts >= t)
  }

  /** The last visit of kind `k` before fix `n`, if a fix at time `t`, or after, may still be part of it;
      or -1. */
  ghost function OpenAt(p: Params, F: seq<Fix>, k: Kind, n: nat, t: int): (r: int)
    requires n <= |F|
    ensures -1 <= r < n && (r >= 0 ==> StartAt(p, F, k, r))
  {
    var r := LastStart(p, F, k, n);
    if r >= 0 && (F[n-1].In(k) || t - F[LastIn(F, k, n) + 1].ts < p.minExit) then r else -1
  }

  /** The cycle the visit at `s` opens, if it has closed, does not take the open dump visit, and
      would not take it were that one long enough. */
  ghost predicate FirmBy(p: Params, F: seq<Fix>, n: nat, t: int, s: nat)
    requires s < |F| && n <= |F| && Long(p, F, Load, s)
  {
    var v := NextLong(p, F, Load, s + 1);
    var e := VisitEnd(p, F, Load, s);
    var q := OpenAt(p, F, Dump, n, t);
    v < n && !p.TooLong(F[v].ts - F[s].ts) && e <= q < v ==> NextLong(p, F, Dump, e) < q
  }

  /** No cycle closed `h` or more before time `t` takes a dump visit that is still open then. */
  ghost predicate Calm(p: Params, F: seq<Fix>, n: nat, t: int, h: int)
    requires n <= |F|
  {
    forall s: nat :: s < n && Long(p, F, Load, s) && ClosesBy(p, F, n, t, h, s) ==> FirmBy(p, F, n, t, s)
  }

  ghost predicate ClosesBy(p: Params, F: seq<Fix>, n: nat, t: int, h: int, s: nat)
    requires s < n <= |F|
  {
    var v := NextLong(p, F, Load, s + 1);
    v < n && F[v].ts + h <= t
  }

  lemma CalmLess(p: Params, F: seq<Fix>, n: nat, t: int, h: int, g: int)
    requires n <= |F| && Calm(p, F, n, t, h) && h <= g
    ensures Calm(p, F, n, t, g)
  {
    hide FirmBy, Long;
  }

  /** A visit left long enough before `t` ends before the tracks part. */
  lemma {:induction false} EndsBeforeCut(p: Params, F: seq<Fix>, n: nat, t: int, k: Kind, j: nat)
    requires Sorted(F) && j < n <= |F| && (n < |F| ==> F[n].ts >= t) && StartAt(p, F, k, j)
    requires NextStart(p, F, k, j + 1) >= n && !F[n-1].In(k)
    requires LastIn(F, k, n) + 1 < n && t - F[LastIn(F, k, n) + 1].ts >= p.minExit
    ensures VisitEnd(p, F, k, j) == LastIn(F, k, n) + 1
  {
    var e, g := LastIn(F, k, n) + 1, VisitEnd(p, F, k, j);
    assert F[j].In(k) && e > j;
    hide StartAt, LastIn;
    if g > e {
      var i := FirstIn(F, k, e, g - 1);
      assert i >= n;
      assert F[i].ts >= F[n].ts;
      RejoinsSoon(p, F, k, j, e, i);
    }
    assert F[e-1].In(k);
  }

  /** A visit other than the open one is settled. */
  lemma {:induction false} VisitSettled(p: Params, F: seq<Fix>, G: seq<Fix>, n: nat, t: int, k: Kind, j: nat)
    requires Parts(F, G, n, t) && j < n && StartAt(p, F, k, j) && j != OpenAt(p, F, k, n, t)
    ensures StartAt(p, G, k, j) && VisitEnd(p, G, k, j) == VisitEnd(p, F, k, j) < n
    ensures Long(p, G, k, j) == Long(p, F, k, j)
  {
    var next := NextStart(p, F, k, j + 1);
    if next < n {
      ShareVisit(p, F, G, n, k, j, next);
    } else {
      LastSettled(p, F, G, n, t, k, j);
    }
  }

  lemma {:induction false} LastSettled(p: Params, F: seq<Fix>, G: seq<Fix>, n: nat, t: int, k: Kind, j: nat)
    requires Parts(F, G, n, t) && j < n && StartAt(p, F, k, j) && j != OpenAt(p, F, k, n, t)
    requires NextStart(p, F, k, j + 1) >= n
    ensures StartAt(p, G, k, j) && VisitEnd(p, G, k, j) == VisitEnd(p, F, k, j) < n
    ensures Long(p, G, k, j) == Long(p, F, k, j)
  {
    hide OpenAt, StartAt, LastStart, NextStart, LastIn, VisitEnd;
    LeftBefore(p, F, n, t, k, j);
    OpenAtCut(p, F, G, n, k, j);
    ShareLastIn(F, G, n, k, n);
    ShareAt(F, G, n, n - 1);
    var e := LastIn(F, k, n) + 1;
    ShareAt(F, G, n, e);
    ShareAt(F, G, n, j);
    EndsBeforeCut(p, F, n, t, k, j);
    EndsBeforeCut(p, G, n, t, k, j);
  }

  lemma LeftBefore(p: Params, F: seq<Fix>, n: nat, t: int, k: Kind, j: nat)
    requires j < n <= |F| && StartAt(p, F, k, j) && NextStart(p, F, k, j + 1) >= n && j != OpenAt(p, F, k, n, t)
    ensures !F[n-1].In(k) && j <= LastIn(F, k, n) < n - 1 && t - F[LastIn(F, k, n) + 1].ts >= p.minExit
  {
    assert LastStart(p, F, k, n) == j;
    assert F[j].In(k);
    hide StartAt, LastStart, NextStart, LastIn;
  }

  /** The dump visit a firm cycle takes, if any, is settled and the same. */
  lemma {:induction false} FirmDump(p: Params, F: seq<Fix>, G: seq<Fix>, n: nat, t: int, e: nat, v: nat)
    requires Parts(F, G, n, t) && e <= v < n
    requires e <= OpenAt(p, F, Dump, n, t) < v ==> NextLong(p, F, Dump, e) < OpenAt(p, F, Dump, n, t)
    ensures var d := NextLong(p, F, Dump, e);
            && (d < v ==> NextLong(p, G, Dump, e) == d && d != OpenAt(p, F, Dump, n, t))
            && (d >= v ==> NextLong(p, G, Dump, e) >= v)
  {
    var d := NextLong(p, F, Dump, e);
    hide VisitEnd, OpenAt;
    forall j | e <= j <= d && j < v
      ensures j != OpenAt(p, F, Dump, n, t) && Long(p, G, Dump, j) == Long(p, F, Dump, j)
    {
      ShareStart(p, F, G, n, Dump, j);
      if StartAt(p, F, Dump, j) {
        VisitSettled(p, F, G, n, t, Dump, j);
      }
    }
    hide Long, StartAt;
    if d < v {
      NextLongIs(p, G, Dump, e, d);
    } else {
      NextLongAtLeast(p, G, Dump, e, v);
    }
  }

  /** A firm cycle closed within the shared part, by a visit that counts in both tracks, is the same in
      both. */
  lemma {:induction false} FirmClosed(p: Params, F: seq<Fix>, G: seq<Fix>, n: nat, t: int, s: nat, v: nat)
    requires Parts(F, G, n, t) && s < v < n && Long(p, F, Load, s) && NextLong(p, F, Load, s + 1) == v
    requires Long(p, G, Load, v) && FirmBy(p, F, n, t, s)
    ensures CycleAt(p, F, s) == CycleAt(p, G, s)
  {
    hide StartAt, Long, NextStart, CycleFrom, CycleAt, OpenAt, NextLong, Sorted;
    SameCloser(p, F, G, n, s, v);
    ShareAt(F, G, n, v);
    ShareAt(F, G, n, s);
    if p.TooLong(F[v].ts - F[s].ts) {
      NotClosedNoCycle(p, F, s);
      NotClosedNoCycle(p, G, s);
    } else {
      var e := VisitEnd(p, F, Load, s);
      FirmDump(p, F, G, n, t, e, v);
      SameTaken(p, F, G, n, t, s, e, v);
    }
  }

  lemma {:induction false} SameTaken(p: Params, F: seq<Fix>, G: seq<Fix>, n: nat, t: int, s: nat, e: nat, v: nat)
    requires Parts(F, G, n, t) && Closes(p, F, s, e, v) && Closes(p, G, s, e, v) && s < e && v < n
    requires var d := NextLong(p, F, Dump, e);
             && (d < v ==> NextLong(p, G, Dump, e) == d && d != OpenAt(p, F, Dump, n, t))
             && (d >= v ==> NextLong(p, G, Dump, e) >= v)
    ensures CycleAt(p, F, s) == CycleAt(p, G, s)
  {
    hide StartAt, Long, NextStart, CycleFrom, CycleAt, OpenAt, VisitEnd;
    var d := NextLong(p, F, Dump, e);
    CycleAtIs(p, F, s, e, d, v);
    CycleAtIs(p, G, s, e, NextLong(p, G, Dump, e), v);
    if d < v {
      VisitSettled(p, F, G, n, t, Dump, d);
      ShareCycleFrom(p, F, G, n, s, e, d, VisitEnd(p, F, Dump, d), v);
    }
  }

  /** What opens and closes a cycle is the same. */
  lemma {:induction false} SameCloser(p: Params, F: seq<Fix>, G: seq<Fix>, n: nat, s: nat, v: nat)
    requires Share(F, G, n) && s < v < n && Long(p, F, Load, s)
    requires NextLong(p, F, Load, s + 1) == v && Long(p, G, Load, v)
    ensures v < |F| && v < |G| && StartAt(p, F, Load, s) && StartAt(p, G, Load, s)
    ensures Long(p, G, Load, s) && NextLong(p, G, Load, s + 1) == v
    ensures s < VisitEnd(p, F, Load, s) == VisitEnd(p, G, Load, s) <= v
  {
    ShareVisit(p, F, G, n, Load, s, v);
    ShareNextLong(p, F, G, n, Load, s + 1, v);
  }

  /** A cycle made of what tracks share is the same. */
  lemma ShareCycleFrom(p: Params, F: seq<Fix>, G: seq<Fix>, n: nat, s: nat, e: nat, d: nat, de: nat, v: nat)
    requires Share(F, G, n) && s < e <= d < de < n && d < v < n
    ensures CycleFrom(p, F, s, e, d, de, v) == CycleFrom(p, G, s, e, d, de, v)
  {
    hide MakeCycle;
    ShareSlice(F, G, n, s, e);
    ShareSlice(F, G, n, d, de);
    ShareAt(F, G, n, s);
    ShareAt(F, G, n, e);
    ShareAt(F, G, n, d);
    ShareAt(F, G, n, de);
    ShareAt(F, G, n, v);
  }

  lemma ShareSlice(F: seq<Fix>, G: seq<Fix>, n: nat, a: nat, b: nat)
    requires Share(F, G, n) && a <= b <= n
    ensures F[a..b] == G[a..b]
  {
    assert F[a..b] == F[..n][a..b];
    assert G[a..b] == G[..n][a..b];
  }

  // ---- fixes that differ only far after -------------------------------------------------------

  /** How far before a change a cycle must start not to be touched by it. */
  function Reach(p: Params): int {
    (if p.cap.Some? then p.cap.value else 0) + p.minVisit + p.minExit
  }

  /** What closes a completed cycle. */
  lemma ClosedBy(p: Params, F: seq<Fix>, s: nat)
    requires s < |F| && CycleAt(p, F, s).Some?
    ensures var v := NextLong(p, F, Load, s + 1);
            v < |F| && Long(p, F, Load, s) && Long(p, F, Load, v) && !p.TooLong(F[v].ts - F[s].ts)
            && CycleAt(p, F, s).value.end == F[v].ts
  {
  }

  /** A completed cycle closed long enough before the tracks part closes alike in both. */
  lemma {:induction false} SettledCloser(p: Params, F: seq<Fix>, G: seq<Fix>, n: nat, t: int, s: nat)
    requires Parts(F, G, n, t) && n < |F| && n < |G| && s < |F| && p.Ok()
    requires CycleAt(p, F, s).Some? && CycleAt(p, F, s).value.end + p.minVisit + p.minExit <= t
    ensures var v := NextLong(p, F, Load, s + 1);
            && s < v < n && Long(p, F, Load, s) && Long(p, F, Load, v) && Long(p, G, Load, v)
            && F[v].ts + p.minVisit + p.minExit <= t && F[v] == G[v]
  {
    hide CycleAt, Long, StartAt, NextLong;
    ClosedBy(p, F, s);
    var v := NextLong(p, F, Load, s + 1);
    assert v < n;
    ShareAt(F, G, n, v);
    LongSettled(p, F, G, n, Load, v);
  }

  /** Tracks that agree on every fix before some time have the same cycles settled by then, if the one
      is calm. */
  lemma {:induction false} SettledSame(p: Params, F: seq<Fix>, G: seq<Fix>, n: nat, t: int, y: Cycle)
    requires Parts(F, G, n, t) && n < |F| && n < |G| && p.Ok() && Calm(p, F, n, t, p.minVisit + p.minExit)
    requires y.end + p.minVisit + p.minExit <= t
    ensures y in Table(p, F) <==> y in Table(p, G)
  {
    hide CycleAt, Long, NextLong, FirmBy, StartAt;
    if y in Table(p, F) {
      var s :| 0 <= s < |F| && CycleAt(p, F, s) == Some(y);
      SettledCloser(p, F, G, n, t, s);
      FirmClosed(p, F, G, n, t, s, NextLong(p, F, Load, s + 1));
    }
    if y in Table(p, G) {
      var s :| 0 <= s < |G| && CycleAt(p, G, s) == Some(y);
      ShareSym(F, G, n);
      SettledCloser(p, G, F, n, t, s);
      SameCloser(p, G, F, n, s, NextLong(p, G, Load, s + 1));
      FirmClosed(p, F, G, n, t, s, NextLong(p, F, Load, s + 1));
    }
  }

  lemma ShareSym(F: seq<Fix>, G: seq<Fix>, n: nat)
    requires Share(F, G, n)
    ensures Share(G, F, n)
  {
  }

  lemma CycleLength(p: Params, F: seq<Fix>, y: Cycle)
    requires Sorted(F) && y in Table(p, F)
    ensures y.start < y.end && (p.cap.Some? ==> y.end <= y.start + p.cap.value)
  {
    hide CycleAt;
    var s :| 0 <= s < |F| && CycleAt(p, F, s) == Some(y);
    ClosedBy(p, F, s);
    CycleStart(p, F, s);
  }

  /** Tracks that agree on every fix before time `t` have the same cycles `Reach` before it, if the one
      is calm. */
  lemma {:induction false} FarSame(p: Params, F: seq<Fix>, G: seq<Fix>, n: nat, t: int, c: int)
    requires Parts(F, G, n, t) && n < |F| && n < |G| && p.Ok() && p.cap.Some?
    requires Calm(p, F, n, t, p.minVisit + p.minExit) && c + Reach(p) <= t
    ensures SameBefore(p, F, G, c)
  {
    hide Table, Calm;
    forall y: Cycle | y.start < c && (y in Table(p, F) || y in Table(p, G))
      ensures y in Table(p, F) <==> y in Table(p, G)
    {
      if y in Table(p, F) {
        CycleLength(p, F, y);
      } else {
        CycleLength(p, G, y);
      }
      SettledSame(p, F, G, n, t, y);
    }
  }

  /** A track in which no dump visit is under way when a load visit begins is calm. */
  lemma {:induction false} ClearIsCalm(p: Params, F: seq<Fix>, n: nat, t: int, h: int)
    requires Sorted(F) && n <= |F| && p.Ok() && Clear(p, F) && h >= p.minExit
    ensures Calm(p, F, n, t, h)
  {
    forall s: nat | s < n && Long(p, F, Load, s) && ClosesBy(p, F, n, t, h, s) ensures FirmBy(p, F, n, t, s) {
      var v, q := NextLong(p, F, Load, s + 1), OpenAt(p, F, Dump, n, t);
      hide Long, NextLong;
      if 0 <= q < v {
        assert ClearAt(p, F, Dump, v);
        ClearCloses(p, F, n, t, q, v);
      }
    }
  }

  lemma {:induction false} ClearCloses(p: Params, F: seq<Fix>, n: nat, t: int, q: nat, v: nat)
    requires Sorted(F) && q < v < n <= |F| && ClearAt(p, F, Dump, v) && StartAt(p, F, Dump, q)
    requires F[v].ts + p.minExit <= t
    ensures OpenAt(p, F, Dump, n, t) != q
  {
    if LastStart(p, F, Dump, n) == q {
      OpenAtCut(p, F, F, n, Dump, q) by {
        assert NextStart(p, F, Dump, q + 1) >= n;
      }
      assert LastIn(F, Dump, n) + 1 <= VisitEnd(p, F, Dump, q) <= v;
      hide StartAt, LastStart;
    }
  }

  /** Cycles of one track never overlap. */
  lemma {:induction false} CyclesApart(p: Params, F: seq<Fix>, y: Cycle, z: Cycle)
    requires Sorted(F) && y in Table(p, F) && z in Table(p, F) && y.start < z.start
    ensures y.end <= z.start
  {
    hide CycleAt, Long, StartAt;
    var s :| 0 <= s < |F| && CycleAt(p, F, s) == Some(y);
    var t :| 0 <= t < |F| && CycleAt(p, F, t) == Some(z);
    CycleStart(p, F, s);
    CycleStart(p, F, t);
    ClosedBy(p, F, s);
    ClosedBy(p, F, t);
    assert s < t;
    assert NextLong(p, F, Load, s + 1) <= t;
  }

  // ---- before a pivot -------------------------------------------------------------------------

  /** `v` starts a load visit that closes no cycle unless it counts in both tracks: it does, or
      the last visit that counts before it is out of the cap's reach. */
  ghost predicate Pivot(p: Params, F: seq<Fix>, G: seq<Fix>, n: nat, v: nat) {
    && Share(F, G, n) && v < n && StartAt(p, F, Load, v) && StartAt(p, G, Load, v)
    && (Long(p, F, Load, v) ==> Long(p, G, Load, v))
    && (!Long(p, F, Load, v) ==>
          var o := LastLong(p, F, Load, v);
          o >= 0 ==> p.TooLong(F[v].ts - F[o].ts))
  }

  /** Before a pivot a calm track opens the same cycles as the other. */
  lemma {:induction false} PivotCycle(p: Params, F: seq<Fix>, G: seq<Fix>, n: nat, t: int, v: nat, s: nat)
    requires Parts(F, G, n, t) && Pivot(p, F, G, n, v) && s < v && p.Ok() && Calm(p, F, n, t, p.minVisit)
    requires F[v].ts + p.minVisit <= t
    ensures CycleAt(p, F, s) == CycleAt(p, G, s)
  {
    hide Calm, CycleAt;
    ShareStart(p, F, G, n, Load, s);
    if StartAt(p, F, Load, s) {
      ShareVisit(p, F, G, n, Load, s, v);
      if Long(p, F, Load, s) {
        var u := NextLong(p, F, Load, s + 1);
        if u < v || Long(p, F, Load, v) {
          PivotClosed(p, F, G, n, t, v, s);
        } else {
          PivotDead(p, F, G, n, v, s);
        }
      }
    }
    if !Long(p, F, Load, s) {
      NotLongNoCycle(p, F, s);
      NotLongNoCycle(p, G, s);
    }
  }

  lemma {:induction false} PivotClosed(p: Params, F: seq<Fix>, G: seq<Fix>, n: nat, t: int, v: nat, s: nat)
    requires Parts(F, G, n, t) && Pivot(p, F, G, n, v) && s < v && p.Ok() && Calm(p, F, n, t, p.minVisit)
    requires F[v].ts + p.minVisit <= t
    requires Long(p, F, Load, s) && (NextLong(p, F, Load, s + 1) < v || Long(p, F, Load, v))
    ensures CycleAt(p, F, s) == CycleAt(p, G, s)
  {
    hide StartAt, VisitEnd, NextStart, FirmBy, CycleAt;
    var u := NextLong(p, F, Load, s + 1);
    assert u <= v;
    if u < v {
      LongStarts(p, F, Load, u);
      ShareVisit(p, F, G, n, Load, u, v);
      LongThenNext(p, F, Load, u, v);
    }
    FirmClosed(p, F, G, n, t, s, u);
  }

  /** After a visit that counts the next visit starts at least `minVisit + minExit` later. */
  lemma LongThenNext(p: Params, F: seq<Fix>, k: Kind, u: nat, v: nat)
    requires Sorted(F) && Long(p, F, k, u) && StartAt(p, F, k, v) && u < v
    ensures F[v].ts >= F[u].ts + p.minVisit + p.minExit
  {
    VisitsApart(p, F, k, u, v);
  }

  lemma {:induction false} PivotDead(p: Params, F: seq<Fix>, G: seq<Fix>, n: nat, v: nat, s: nat)
    requires Sorted(F) && Sorted(G) && Pivot(p, F, G, n, v) && s < v
    requires Long(p, F, Load, s) && Long(p, G, Load, s)
    requires NextLong(p, F, Load, s + 1) >= v && !Long(p, F, Load, v)
    ensures CycleAt(p, F, s) == None == CycleAt(p, G, s)
  {
    hide *;
    PivotParts(p, F, G, n, v);
    LastLongIs(p, F, v, s);
    PivotTooLong(p, F, G, n, v, s);
    NoLongBetween(p, F, G, n, v, s);
    NextTooLong(p, F, v, s);
    NextTooLong(p, G, v, s);
    NotClosedNoCycle(p, F, s);
    NotClosedNoCycle(p, G, s);
  }

  lemma PivotParts(p: Params, F: seq<Fix>, G: seq<Fix>, n: nat, v: nat)
    requires Pivot(p, F, G, n, v)
    ensures Share(F, G, n) && v < n && v < |F| && v < |G| && StartAt(p, F, Load, v) && StartAt(p, G, Load, v)
  {
    hide StartAt, Long, LastLong;
    ShareAt(F, G, n, v);
  }

  lemma PivotTooLong(p: Params, F: seq<Fix>, G: seq<Fix>, n: nat, v: nat, s: nat)
    requires Pivot(p, F, G, n, v) && s < v && v < |F| && v < |G| && !Long(p, F, Load, v) && LastLong(p, F, Load, v) == s
    ensures p.TooLong(F[v].ts - F[s].ts) && p.TooLong(G[v].ts - G[s].ts)
  {
    hide StartAt, Long, LastLong;
    ShareAt(F, G, n, v);
    ShareAt(F, G, n, s);
  }

  lemma NextTooLong(p: Params, F: seq<Fix>, v: nat, s: nat)
    requires Sorted(F) && s < v < |F| && p.TooLong(F[v].ts - F[s].ts) && NextLong(p, F, Load, s + 1) >= v
    ensures var n := NextLong(p, F, Load, s + 1); n == |F| || p.TooLong(F[n].ts - F[s].ts)
  {
    hide NextLong;
    var n := NextLong(p, F, Load, s + 1);
    assert n < |F| ==> F[n].ts >= F[v].ts;
  }

  lemma LastLongIs(p: Params, F: seq<Fix>, v: nat, s: nat)
    requires s < v <= |F| && Long(p, F, Load, s) && NextLong(p, F, Load, s + 1) >= v
    ensures LastLong(p, F, Load, v) == s
  {
    hide Long;
    assert LastLong(p, F, Load, v) >= s;
  }

  lemma {:induction false} NoLongBetween(p: Params, F: seq<Fix>, G: seq<Fix>, n: nat, v: nat, s: nat)
    requires Share(F, G, n) && s < v < n && StartAt(p, F, Load, v)
    requires NextLong(p, F, Load, s + 1) >= v
    ensures NextLong(p, G, Load, s + 1) >= v
  {
    forall j | s < j < v
      ensures !Long(p, G, Load, j)
    {
      ShareStart(p, F, G, n, Load, j);
      if StartAt(p, F, Load, j) {
        ShareVisit(p, F, G, n, Load, j, v);
      }
    }
  }

  // ---- fixes that follow the track ------------------------------------------------------------

  /** Without a pending visit, a visit of the track that counts once more fixes follow did so
      already. */
  lemma {:induction false} NoPendingLong(p: Params, F: seq<Fix>, G: seq<Fix>, s: nat)
    requires Sorted(F) && Sorted(G) && Share(F, G, |F|) && s < |F| && Pending(p, F) < 0
    requires Long(p, G, Load, s)
    ensures Long(p, F, Load, s)
  {
    ShareStart(p, F, G, |F|, Load, s);
    var next := NextStart(p, F, Load, s + 1);
    if next < |F| {
      ShareVisit(p, F, G, |F|, Load, s, next);
    } else {
      assert LastStart(p, F, Load, |F|) == s;
      if Tail(p, F) < 0 {
        ClosedVisit(p, F, G, s);
        ShareAt(F, G, |F|, s);
      }
    }
  }

  /** The last visit of a track, left at least `minExit` before its last fix, is over. */
  lemma {:induction false} ClosedVisit(p: Params, F: seq<Fix>, G: seq<Fix>, s: nat)
    requires Sorted(F) && Sorted(G) && Share(F, G, |F|) && s < |F|
    requires LastStart(p, F, Load, |F|) == s && Tail(p, F) < 0
    ensures StartAt(p, G, Load, s) && ExitTs(p, G, Load, s) == ExitTs(p, F, Load, s)
  {
    NextStartIs(p, F, Load, s + 1, |F|);
    VisitGrows(p, F, G, Load, s);
    var e := VisitEnd(p, F, Load, s);
    assert F[e-1].In(Load);
    hide StartAt, VisitEnd, NextStart, LastStart;
    ShareAt(F, G, |F|, e);
    if VisitEnd(p, G, Load, s) > e {
      ReopenedLate(p, F, G, s);
    }
  }

  lemma {:induction false} ReopenedLate(p: Params, F: seq<Fix>, G: seq<Fix>, s: nat)
    requires Sorted(F) && Sorted(G) && Share(F, G, |F|) && s < |F|
    requires StartAt(p, F, Load, s) && NextStart(p, F, Load, s + 1) == |F| && StartAt(p, G, Load, s)
    requires VisitEnd(p, F, Load, s) < |F| && VisitEnd(p, G, Load, s) > VisitEnd(p, F, Load, s)
    ensures F[|F|-1].ts - ExitTs(p, F, Load, s) < p.minExit
  {
    var n := |F|;
    var e, g := VisitEnd(p, F, Load, s), VisitEnd(p, G, Load, s);
    var j := FirstIn(G, Load, e, g - 1);
    ShareAt(F, G, n, e);
    ShareAt(F, G, n, n - 1);
    assert j >= n by {
      if j < n {
        ShareAt(F, G, n, j);
      }
    }
    RejoinsSoon(p, G, Load, s, e, j);
    assert G[n-1].ts < G[j].ts;
  }

  lemma {:induction false} SameBeforePivot(p: Params, F: seq<Fix>, G: seq<Fix>, n: nat, t: int, v: nat)
    requires Parts(F, G, n, t) && Pivot(p, F, G, n, v) && v < |F| && F[v].ts + p.minVisit <= t
    requires p.Ok() && Calm(p, F, n, t, p.minVisit)
    ensures SameBefore(p, F, G, F[v].ts)
  {
    hide CycleAt, Calm, Pivot;
    PivotShared(p, F, G, n, v);
    forall s: nat | s < v
      ensures CycleAt(p, F, s) == CycleAt(p, G, s)
    {
      PivotCycle(p, F, G, n, t, v, s);
    }
    SameByIndex(p, F, G, v);
  }

  /** Tracks with the same cycle, or none, at every fix before one they share. */
  lemma {:induction false} SameByIndex(p: Params, F: seq<Fix>, G: seq<Fix>, v: nat)
    requires Sorted(F) && Sorted(G) && v < |F| && v < |G| && F[v] == G[v]
    requires forall s: nat :: s < v ==> CycleAt(p, F, s) == CycleAt(p, G, s)
    ensures SameBefore(p, F, G, F[v].ts)
  {
    hide CycleAt;
    forall y: Cycle | y.start < F[v].ts
      ensures y in Table(p, F) <==> y in Table(p, G)
    {
      if y in Table(p, F) {
        var s :| 0 <= s < |F| && CycleAt(p, F, s) == Some(y);
        CycleStart(p, F, s);
        assert CycleAt(p, G, s) == Some(y);
      }
      if y in Table(p, G) {
        var s :| 0 <= s < |G| && CycleAt(p, G, s) == Some(y);
        CycleStart(p, G, s);
        assert CycleAt(p, F, s) == Some(y);
      }
    }
  }

  lemma PivotShared(p: Params, F: seq<Fix>, G: seq<Fix>, n: nat, v: nat)
    requires Pivot(p, F, G, n, v)
    ensures v < |F| && v < |G| && F[v] == G[v]
  {
    ShareAt(F, G, n, v);
  }

  /** For a whole track every visit may open a cycle. */
  lemma {:induction false} LastOpenerIsLong(p: Params, F: seq<Fix>, i: nat)
    requires i <= |F|
    ensures LastOpener(p, F, true, None, i) == LastLong(p, F, Load, i)
  {
    hide Long;
    if i > 0 {
      LastOpenerIsLong(p, F, i - 1);
    }
  }

  lemma {:induction false} LastLongSkips(p: Params, F: seq<Fix>, k: Kind, i: nat, j: nat)
    requires i <= j <= |F| && forall m :: i <= m < j ==> !Long(p, F, k, m)
    ensures LastLong(p, F, k, i) == LastLong(p, F, k, j)
    decreases j
  {
    hide Long;
    if i < j {
      LastLongSkips(p, F, k, i, j - 1);
    }
  }

  /** The restart point's visit, short of counting, is out of reach of every earlier one. */
  lemma {:induction false} AnchorReach(p: Params, F: seq<Fix>)
    requires 0 < |F| && Anchor(p, F, true, None) >= 0
    ensures var a := Anchor(p, F, true, None); var o := LastLong(p, F, Load, a);
            !Long(p, F, Load, a) && o >= 0 ==> p.TooLong(F[a].ts - F[o].ts)
  {
    var a := Anchor(p, F, true, None);
    if !Long(p, F, Load, a) {
      LastOpenerIsLong(p, F, |F|);
      hide StartAt, VisitEnd;
      assert a == Pending(p, F);
      forall m | a <= m < |F|
        ensures !Long(p, F, Load, m)
      {
      }
      LastLongSkips(p, F, Load, a, |F|);
    }
  }

  lemma ExitByLast(p: Params, F: seq<Fix>, k: Kind, s: nat)
    requires Sorted(F) && StartAt(p, F, k, s)
    ensures ExitTs(p, F, k, s) <= F[|F|-1].ts
  {
    hide StartAt, VisitEnd;
  }

  lemma {:induction false} AnchorPivot(p: Params, F: seq<Fix>, G: seq<Fix>, a: nat)
    requires Sorted(F) && Sorted(G) && 0 < |F| && Share(F, G, |F|) && p.Ok()
    requires a == Anchor(p, F, true, None)
    ensures Pivot(p, F, G, |F|, a)
  {
    hide *;
    AnchorReach(p, F);
    ShareStart(p, F, G, |F|, Load, a);
    if Long(p, F, Load, a) {
      LongGrows(p, F, G, Load, a);
    }
    MakePivot(p, F, G, |F|, a);
  }

  lemma MakePivot(p: Params, F: seq<Fix>, G: seq<Fix>, n: nat, v: nat)
    requires Share(F, G, n) && v < n && v < |F| && StartAt(p, F, Load, v) && StartAt(p, G, Load, v)
    requires Long(p, F, Load, v) ==> Long(p, G, Load, v)
    requires !Long(p, F, Load, v) ==>
      LastLong(p, F, Load, v) < 0 || p.TooLong(F[v].ts - F[LastLong(p, F, Load, v)].ts)
    ensures Pivot(p, F, G, n, v)
  {
    hide StartAt, Long, LastLong;
  }

  lemma {:induction false} DeadOpener(p: Params, F: seq<Fix>, G: seq<Fix>, o: nat)
    requires Sorted(F) && Sorted(G) && 0 < |F| && Share(F, G, |F|) && o < |F|
    requires Pending(p, F) < 0 && !MayStillClose(p, F, o)
    requires Long(p, F, Load, o) && Long(p, G, Load, o) && LastLong(p, F, Load, |F|) == o
    ensures CycleAt(p, F, o) == None == CycleAt(p, G, o)
  {
    hide StartAt, VisitEnd, Pending, NextStart, Long, CycleAt, NextLong, LastLong;
    var w := NextLong(p, G, Load, o + 1);
    if w < |F| {
      NoPendingLong(p, F, G, w);
      assert false;
    }
    ShareAt(F, G, |F|, o);
    ShareAt(F, G, |F|, |F| - 1);
    assert w < |G| ==> G[w].ts > G[|F|-1].ts;
    NotClosedNoCycle(p, F, o);
    NotClosedNoCycle(p, G, o);
  }

  // ---- a fix inserted behind the newest -------------------------------------------------------

  lemma {:induction false} LatePivot(p: Params, F: seq<Fix>, G: seq<Fix>, n: nat, a: nat)
    requires Sorted(F) && Sorted(G) && Share(F, G, n) && Includes(G, F) && n < |F| && n < |G| && p.Ok()
    requires a == Anchor(p, F, true, None)
    requires F[a].ts + p.minVisit <= F[n].ts && F[a].ts + p.minVisit <= G[n].ts
    ensures Pivot(p, F, G, n, a)
  {
    hide StartAt, VisitEnd, LastLong, Anchor, Long, Includes;
    AnchorReach(p, F);
    assert a < n;
    ShareAt(F, G, n, a);
    ShareStart(p, F, G, n, Load, a);
    if Long(p, F, Load, a) {
      LongKept(p, F, G, n, Load, a);
    }
  }

  /** Late fixes at least `minVisit` past the anchored restart point leave every cycle before it
      alone, if the track is calm where they come in. */
  lemma {:induction false} LateSame(p: Params, F: seq<Fix>, G: seq<Fix>, n: nat, t: int)
    requires Parts(F, G, n, t) && Includes(G, F) && n < |F| && n < |G|
    requires p.Ok() && Calm(p, F, n, t, p.minVisit) && FullResume(p, F).entryKnown
    requires FullResume(p, F).ts + p.minVisit <= t
    ensures SameBefore(p, F, G, FullResume(p, F).ts)
  {
    hide Calm;
    var a := Anchor(p, F, true, None);
    LatePivot(p, F, G, n, a);
    SameBeforePivot(p, F, G, n, t, a);
  }

  // ---- the restart point only moves on --------------------------------------------------------

  /** A visit out of the reach of the last one that counts cannot close its cycle. */
  lemma {:induction false} OutOfReach(p: Params, G: seq<Fix>, v: nat, o: nat)
    requires Sorted(G) && o < v < |G| && StartAt(p, G, Load, v) && p.TooLong(G[v].ts - G[o].ts)
    ensures !MayStillClose(p, G, o)
  {
    var q := LastStart(p, G, Load, |G|);
    assert q >= v;
    hide StartAt, ExitTs, LastStart, Long;
    assert G[q].ts >= G[v].ts && G[|G|-1].ts >= G[v].ts;
  }

  lemma {:induction false} AnchorNotBefore(p: Params, G: seq<Fix>, v: nat)
    requires Sorted(G) && v < |G| && StartAt(p, G, Load, v)
    requires !Long(p, G, Load, v) ==>
               var o := LastLong(p, G, Load, v);
               o >= 0 ==> p.TooLong(G[v].ts - G[o].ts)
    ensures var a := Anchor(p, G, true, None); a < 0 || a >= v
  {
    hide StartAt, VisitEnd, MayStillClose, Long;
    LastOpenerIsLong(p, G, |G|);
    assert LastStart(p, G, Load, |G|) >= v;
    var o := LastLong(p, G, Load, |G|);
    hide LastStart, LastOpener;
    if 0 <= o < v {
      LastLongSkips(p, G, Load, v, |G|);
      hide LastLong;
      OutOfReach(p, G, v, o);
    }
  }

  /** A load visit that counts, or that no earlier one can be closed by, bounds the restart. */
  lemma {:induction false} RestartNotBefore(p: Params, G: seq<Fix>, v: nat)
    requires Sorted(G) && v < |G| && StartAt(p, G, Load, v)
    requires !Long(p, G, Load, v) ==>
               var o := LastLong(p, G, Load, v);
               o >= 0 ==> p.TooLong(G[v].ts - G[o].ts)
    ensures FullResume(p, G).ts >= G[v].ts
  {
    AnchorNotBefore(p, G, v);
    hide StartAt, Anchor, LastStart, LastLong;
    assert G[|G|-1].ts >= G[v].ts;
  }

  lemma {:induction false} PivotRestart(p: Params, F: seq<Fix>, G: seq<Fix>, n: nat, v: nat)
    requires Sorted(F) && Sorted(G) && Pivot(p, F, G, n, v)
    ensures v < |F| && FullResume(p, G).ts >= F[v].ts
  {
    ShareAt(F, G, n, v);
    var o := LastLong(p, G, Load, v);
    if !Long(p, G, Load, v) && o >= 0 {
      ShareLastLong(p, F, G, n, Load, v, v);
      ShareAt(F, G, n, o);
    }
    RestartNotBefore(p, G, v);
  }

  lemma {:induction false} ShareLastLong(p: Params, F: seq<Fix>, G: seq<Fix>, n: nat, k: Kind, i: nat, v: nat)
    requires Share(F, G, n) && i <= v < n && StartAt(p, F, k, v)
    ensures LastLong(p, F, k, i) == LastLong(p, G, k, i)
    decreases i
  {
    hide Long, StartAt;
    if i > 0 {
      SameLongAt(p, F, G, n, k, i - 1, v);
      ShareLastLong(p, F, G, n, k, i - 1, v);
    }
  }

  /** Before a start they share, tracks have the same visits that count. */
  lemma {:induction false} SameLongAt(p: Params, F: seq<Fix>, G: seq<Fix>, n: nat, k: Kind, j: nat, v: nat)
    requires Share(F, G, n) && j < v < n && StartAt(p, F, k, v)
    ensures Long(p, F, k, j) == Long(p, G, k, j)
  {
    ShareStart(p, F, G, n, k, j);
    if StartAt(p, F, k, j) {
      ShareVisit(p, F, G, n, k, j, v);
    }
  }

  /** A visit pending once more fixes follow was pending before, if it had begun. */
  lemma {:induction false} PendingWas(p: Params, F: seq<Fix>, G: seq<Fix>)
    requires Sorted(F) && Sorted(G) && Share(F, G, |F|) && |F| < |G| && 0 <= Pending(p, G) < |F|
    ensures Pending(p, F) == Pending(p, G)
  {
    var q := Pending(p, G);
    ShareStart(p, F, G, |F|, Load, q);
    assert LastStart(p, F, Load, |F|) == q by {
      LastStartShared(p, F, G, q);
    }
    if Tail(p, F) < 0 {
      ClosedVisit(p, F, G, q);
      ExitByLast(p, F, Load, q);
      ShareAt(F, G, |F|, |F| - 1);
      StillIn(p, G, q);
    }
    if Long(p, F, Load, q) {
      LongGrows(p, F, G, Load, q);
    }
  }

  lemma {:induction false} LastStartShared(p: Params, F: seq<Fix>, G: seq<Fix>, q: nat)
    requires Share(F, G, |F|) && q < |F| && LastStart(p, G, Load, |G|) == q
    ensures LastStart(p, F, Load, |F|) == q
  {
    ShareStart(p, F, G, |F|, Load, q);
    var r := LastStart(p, F, Load, |F|);
    assert r >= q;
    ShareStart(p, F, G, |F|, Load, r);
  }

  /** The last visit of a track that ends inside it reaches the last fix. */
  lemma {:induction false} StillIn(p: Params, G: seq<Fix>, q: nat)
    requires 0 < |G| && LastStart(p, G, Load, |G|) == q && G[|G|-1].In(Load)
    ensures StartAt(p, G, Load, q) && ExitTs(p, G, Load, q) == G[|G|-1].ts
  {
    NextStartIs(p, G, Load, q + 1, |G|);
  }

  lemma {:induction false} DoneNoCloser(p: Params, F: seq<Fix>, G: seq<Fix>, b: nat)
    requires Sorted(F) && Sorted(G) && 0 < |F| && Share(F, G, |F|) && |F| < |G| && b < |F|
    requires Pending(p, F) < 0 && !MayStillClose(p, F, b)
    ensures !MayStillClose(p, G, b)
  {
    var q := Pending(p, G);
    if 0 <= q < |F| {
      PendingWas(p, F, G);
    }
    hide Pending;
    ShareAt(F, G, |F|, |F| - 1);
    ShareAt(F, G, |F|, b);
    assert q >= |F| ==> G[q].ts > G[|F|-1].ts;
    assert G[|G|-1].ts > G[|F|-1].ts;
  }

  lemma {:induction false} DoneAnchor(p: Params, F: seq<Fix>, G: seq<Fix>)
    requires Sorted(F) && Sorted(G) && 0 < |F| && Share(F, G, |F|) && |F| < |G| && p.Ok()
    requires Anchor(p, F, true, None) < 0
    ensures var a := Anchor(p, G, true, None); a < 0 || a >= |F|
  {
    hide StartAt, Long, Pending, LastOpener, LastStart, MayStillClose, LastLong;
    LastOpenerIsLong(p, F, |F|);
    LastOpenerIsLong(p, G, |G|);
    var o := LastLong(p, G, Load, |G|);
    if 0 <= o < |F| {
      NoPendingLong(p, F, G, o);
      LastLongWas(p, F, G, o);
      DoneNoCloser(p, F, G, o);
    }
    if 0 <= Pending(p, G) < |F| {
      PendingWas(p, F, G);
    }
  }

  lemma {:induction false} DoneRestart(p: Params, F: seq<Fix>, G: seq<Fix>)
    requires Sorted(F) && Sorted(G) && 0 < |F| && Share(F, G, |F|) && |F| < |G| && p.Ok()
    requires Anchor(p, F, true, None) < 0
    ensures FullResume(p, G).ts >= F[|F|-1].ts
  {
    hide Anchor, StartAt, LastStart;
    ShareAt(F, G, |F|, |F| - 1);
    DoneAnchor(p, F, G);
  }

  lemma {:induction false} LastLongWas(p: Params, F: seq<Fix>, G: seq<Fix>, b: nat)
    requires Sorted(F) && Sorted(G) && Share(F, G, |F|) && b < |F| && Long(p, F, Load, b)
    requires LastLong(p, G, Load, |G|) == b
    ensures LastLong(p, F, Load, |F|) == b
  {
    var r := LastLong(p, F, Load, |F|);
    assert r >= b;
    LongGrows(p, F, G, Load, r);
  }

  /** The restart point of a track never moves back when fixes follow. */
  lemma {:induction false} ExtendRestart(p: Params, F: seq<Fix>, G: seq<Fix>)
    requires Sorted(F) && Sorted(G) && 0 < |F| && Share(F, G, |F|) && p.Ok()
    ensures FullResume(p, G).ts >= FullResume(p, F).ts
  {
    var a := Anchor(p, F, true, None);
    if |F| == |G| {
      assert F == F[..|F|] == G[..|F|] == G;
    } else if a >= 0 {
      AnchorPivot(p, F, G, a);
      PivotRestart(p, F, G, |F|, a);
    } else {
      DoneRestart(p, F, G);
    }
  }

  lemma {:induction false} LateRestart(p: Params, F: seq<Fix>, G: seq<Fix>, n: nat)
    requires Sorted(F) && Sorted(G) && Share(F, G, n) && Includes(G, F) && n < |F| && n < |G|
    requires p.Ok() && FullResume(p, F).entryKnown
    requires FullResume(p, F).ts + p.minVisit <= F[n].ts && FullResume(p, F).ts + p.minVisit <= G[n].ts
    ensures FullResume(p, G).ts >= FullResume(p, F).ts
  {
    var a := Anchor(p, F, true, None);
    LatePivot(p, F, G, n, a);
    PivotRestart(p, F, G, n, a);
  }

  /** The restart point is never further back than the longest cycle and visit can reach. */
  lemma {:induction false} RestartWithinReach(p: Params, F: seq<Fix>)
    requires Sorted(F) && 0 < |F| && p.Ok() && p.cap.Some?
    ensures FullResume(p, F).ts > F[|F|-1].ts - Reach(p)
  {
    var a := Anchor(p, F, true, None);
    var q := Pending(p, F);
    if q >= 0 {
      PendingRecent(p, F);
    }
  }

  lemma {:induction false} PendingRecent(p: Params, F: seq<Fix>)
    requires Sorted(F) && 0 < |F| && p.Ok() && Pending(p, F) >= 0
    ensures F[Pending(p, F)].ts > F[|F|-1].ts - p.minVisit - p.minExit
  {
    var q := Pending(p, F);
    if F[|F|-1].In(Load) {
      StillIn(p, F, q);
    }
  }

  // ---- the analysis of a window ---------------------------------------------------------------

  /** A window: what is left of the track after the lead-in before `c`, and whether a load visit
      at its very first fix is known to start there.  (Only the start of the whole track can be
      such a first fix at or after `c`.) */
  ghost predicate Window(p: Params, F: seq<Fix>, lo: nat, c: int, W: seq<Fix>, known: bool) {
    && Sorted(F) && Cut(F, lo, W) && LeadsIn(p, F, lo, c) && p.Ok()
    && (0 < |F| && F[0].ts >= c && StartAt(p, F, Load, 0) ==> known)
  }

  lemma CutCanOpen(p: Params, F: seq<Fix>, lo: nat, c: int, W: seq<Fix>, known: bool, i: nat)
    requires Window(p, F, lo, c, W, known) && lo <= i < |F|
    ensures F[i].ts < c ==> !CanOpen(W, known, Some(c), i - lo)
    ensures F[i].ts >= c && StartAt(p, F, Load, i) ==> CanOpen(W, known, Some(c), i - lo)
  {
    hide StartAt;
    assert F[i] == W[i - lo];
  }

  /** The cycles built from a window are those of the whole track from `c` on. */
  lemma {:induction false} WindowCycles(p: Params, F: seq<Fix>, lo: nat, c: int, W: seq<Fix>, known: bool, y: Cycle)
    requires Window(p, F, lo, c, W, known)
    ensures y in CycleList(p, W, known, Some(c), |W|) <==> y in Table(p, F) && y.start >= c
  {
    hide StartAt, CycleAt, CycleList, Long;
    CycleListIs(p, W, known, Some(c), |W|, y);
    if y in CycleList(p, W, known, Some(c), |W|) {
      var s :| 0 <= s < |W| && Opens(p, W, known, Some(c), s) && CycleAt(p, W, s).value == y;
      assert F[s + lo] == W[s];
      CutCycle(p, F, lo, c, W, s + lo);
      CycleStart(p, F, s + lo);
    }
    if y in Table(p, F) && y.start >= c {
      var s :| 0 <= s < |F| && CycleAt(p, F, s) == Some(y);
      WindowOpens(p, F, lo, c, W, known, s, y);
    }
  }

  lemma {:induction false} WindowOpens(p: Params, F: seq<Fix>, lo: nat, c: int, W: seq<Fix>, known: bool, s: nat,
                                       y: Cycle)
    requires Window(p, F, lo, c, W, known) && s < |F| && CycleAt(p, F, s) == Some(y) && y.start >= c
    ensures lo <= s && Opens(p, W, known, Some(c), s - lo) && CycleAt(p, W, s - lo) == Some(y)
  {
    hide CycleAt, CanOpen;
    CycleStart(p, F, s);
    ClosedBy(p, F, s);
    hide StartAt;
    assert lo <= s;
    CutCycle(p, F, lo, c, W, s);
    CutCanOpen(p, F, lo, c, W, known, s);
  }

  lemma {:induction false} CutLastStart(p: Params, F: seq<Fix>, lo: nat, c: int, W: seq<Fix>, i: nat)
    requires Sorted(F) && Cut(F, lo, W) && LeadsIn(p, F, lo, c) && p.Ok() && lo <= i <= |F|
    ensures var s, w := LastStart(p, F, Load, i), LastStart(p, W, Load, i - lo);
            if s >= 0 && F[s].ts >= c then s >= lo && w == s - lo else w >= 0 ==> W[w].ts < c
    decreases i
  {
    if i > lo {
      assert F[i-1] == W[i-1 - lo];
      if F[i-1].ts >= c {
        CutStart(p, F, lo, c, W, Load, i - 1);
      }
      hide StartAt;
      CutLastStart(p, F, lo, c, W, i - 1);
    } else {
      hide StartAt;
      var s := LastStart(p, F, Load, i);
      assert s >= 0 ==> F[s].ts < F[lo].ts || lo == |F| || s < lo;
    }
  }

  lemma {:induction false} CutOpenerAt(p: Params, F: seq<Fix>, lo: nat, c: int, W: seq<Fix>, known: bool, i: nat)
    requires Window(p, F, lo, c, W, known) && lo <= i < |F|
    ensures Long(p, W, Load, i - lo) && CanOpen(W, known, Some(c), i - lo) <==>
            Long(p, F, Load, i) && F[i].ts >= c
  {
    CutCanOpen(p, F, lo, c, W, known, i);
    if F[i].ts >= c {
      CutStart(p, F, lo, c, W, Load, i);
      hide CanOpen;
      if StartAt(p, F, Load, i) {
        CutVisit(p, F, lo, c, W, Load, i);
      }
    }
  }

  lemma {:induction false} CutLastOpener(p: Params, F: seq<Fix>, lo: nat, c: int, W: seq<Fix>, known: bool, i: nat)
    requires Window(p, F, lo, c, W, known) && lo <= i <= |F|
    ensures var o, w := LastLong(p, F, Load, i), LastOpener(p, W, known, Some(c), i - lo);
            if o >= 0 && F[o].ts >= c then o >= lo && w == o - lo else w == -1
    decreases i
  {
    hide StartAt, Long, CanOpen;
    if i > lo {
      CutOpenerAt(p, F, lo, c, W, known, i - 1);
      CutLastOpener(p, F, lo, c, W, known, i - 1);
    } else {
      var o := LastLong(p, F, Load, i);
      assert o >= 0 ==> lo > 0 && o < lo && F[o].ts < c;
    }
  }

  lemma PendingIsLast(p: Params, F: seq<Fix>)
    ensures Pending(p, F) >= 0 ==> Pending(p, F) == LastStart(p, F, Load, |F|)
  {
  }

  /** From `c` on the window sees the same pending visit. */
  lemma {:induction false} CutPending(p: Params, F: seq<Fix>, lo: nat, c: int, W: seq<Fix>)
    requires Sorted(F) && Cut(F, lo, W) && LeadsIn(p, F, lo, c) && p.Ok() && 0 < |W|
    ensures var s := LastStart(p, F, Load, |F|);
            if s >= 0 && F[s].ts >= c
            then Pending(p, W) == (if Pending(p, F) < 0 then -1 else Pending(p, F) - lo)
            else Pending(p, W) >= 0 ==> W[Pending(p, W)].ts < c
  {
    hide StartAt, VisitEnd, ExitTs;
    CutLastStart(p, F, lo, c, W, |F|);
    PendingIsLast(p, W);
    var s := LastStart(p, F, Load, |F|);
    assert F[|F|-1] == W[|W|-1];
    hide LastStart;
    if s >= 0 && F[s].ts >= c {
      assert F[s] == W[s - lo];
      CutVisit(p, F, lo, c, W, Load, s);
    }
  }

  /** The restart point found in a window is the whole track's, if the window reaches it. */
  lemma {:induction false} WindowResume(p: Params, F: seq<Fix>, lo: nat, c: int, W: seq<Fix>, known: bool)
    requires Window(p, F, lo, c, W, known) && 0 < |W| && c <= FullResume(p, F).ts
    ensures ResumeOf(p, W, known, Some(c)) == FullResume(p, F)
  {
    WindowAnchor(p, F, lo, c, W, known);
    CutLastStart(p, F, lo, c, W, |F|);
    assert F[|F|-1] == W[|W|-1];
  }

  lemma {:induction false} WindowAnchor(p: Params, F: seq<Fix>, lo: nat, c: int, W: seq<Fix>, known: bool)
    requires Window(p, F, lo, c, W, known) && 0 < |W| && c <= FullResume(p, F).ts
    ensures var a := Anchor(p, F, true, None);
            Anchor(p, W, known, Some(c)) == if a < 0 then -1 else a - lo
    ensures Anchor(p, F, true, None) >= 0 ==> Anchor(p, F, true, None) >= lo && F[Anchor(p, F, true, None)].ts >= c
  {
    hide StartAt, Long, LastLong, LastOpener, Pending, LastStart, MayStillClose;
    LastOpenerIsLong(p, F, |F|);
    CutLastOpener(p, F, lo, c, W, known, |F|);
    CutPending(p, F, lo, c, W);
    PendingIsLast(p, F);
    var o, q := LastLong(p, F, Load, |F|), Pending(p, F);
    if o >= 0 && F[o].ts >= c {
      WindowMayClose(p, F, lo, c, W, o);
    }
    if q >= 0 {
      if F[q].ts >= c {
        assert lo <= q;
        CutCanOpen(p, F, lo, c, W, known, q);
      }
    }
  }

  lemma {:induction false} WindowMayClose(p: Params, F: seq<Fix>, lo: nat, c: int, W: seq<Fix>, o: nat)
    requires Sorted(F) && Cut(F, lo, W) && LeadsIn(p, F, lo, c) && p.Ok() && 0 < |W| && lo <= o < |F|
    requires Long(p, F, Load, o) && F[o].ts >= c
    ensures MayStillClose(p, W, o - lo) == MayStillClose(p, F, o)
    ensures Pending(p, W) == if Pending(p, F) < 0 then -1 else Pending(p, F) - lo
  {
    hide StartAt, Long, Pending;
    LongStarts(p, F, Load, o);
    CutPending(p, F, lo, c, W);
    PendingIsLast(p, F);
    assert LastStart(p, F, Load, |F|) >= o;
    hide LastStart;
    assert F[LastStart(p, F, Load, |F|)].ts >= c;
    hide Sorted, LeadsIn;
    assert F[|F|-1] == W[|W|-1] && F[o] == W[o - lo];
    var q := Pending(p, F);
    if q >= 0 {
      assert F[q] == W[q - lo];
    }
  }

  /** The window reaches back to the track's restart point: that is no load entry before `c`. */
  ghost predicate Reaches(p: Params, F: seq<Fix>, c: int)
    requires 0 < |F|
  {
    FullResume(p, F).entryKnown ==> c <= FullResume(p, F).ts
  }

  /** The restart point found in a window is the whole track's if and only if the window reaches
      back to it. */
  lemma {:induction false} WindowResumeExact(p: Params, F: seq<Fix>, lo: nat, c: int, W: seq<Fix>, known: bool)
    requires Window(p, F, lo, c, W, known) && 0 < |W|
    ensures 0 < |F|
    ensures ResumeOf(p, W, known, Some(c)) == FullResume(p, F) <==> Reaches(p, F, c)
  {
    hide Window, StartAt, Anchor, LastStart;
    WindowEnds(p, F, lo, c, W, known);
    if c <= FullResume(p, F).ts {
      WindowResume(p, F, lo, c, W, known);
    } else if c > F[|F|-1].ts {
      AnchorIn(p, W, known, c);
    }
  }

  lemma WindowEnds(p: Params, F: seq<Fix>, lo: nat, c: int, W: seq<Fix>, known: bool)
    requires Window(p, F, lo, c, W, known) && 0 < |W|
    ensures 0 < |F| && F[|F|-1] == W[|W|-1] && Sorted(W)
  {
    forall i, j | 0 <= i < j < |W| ensures W[i].ts < W[j].ts {
      assert W[i] == F[i + lo] && W[j] == F[j + lo];
    }
  }

  /** A window restarts at no fix before its start. */
  lemma AnchorIn(p: Params, W: seq<Fix>, known: bool, c: int)
    requires 0 < |W| && Sorted(W) && c > W[|W|-1].ts
    ensures Anchor(p, W, known, Some(c)) < 0
  {
    hide StartAt;
  }

  // ---- a visit still in progress --------------------------------------------------------------

  lemma {:induction false} NoMoreStarts(p: Params, F: seq<Fix>, G: seq<Fix>, i: nat)
    requires 0 < |F| <= i <= |G| && Share(F, G, |F|) && F[|F|-1].In(Load)
    requires forall j :: |F| <= j < |G| ==> G[j].In(Load)
    ensures LastStart(p, G, Load, i) == LastStart(p, F, Load, |F|)
    decreases i
  {
    if i > |F| {
      ShareAt(F, G, |F|, |F| - 1);
      assert G[i-2].In(Load);
      assert !StartAt(p, G, Load, i - 1);
      NoMoreStarts(p, F, G, i - 1);
    } else {
      LastStartSame(p, F, G, i);
    }
  }

  lemma {:induction false} LastStartSame(p: Params, F: seq<Fix>, G: seq<Fix>, i: nat)
    requires i <= |F| && Share(F, G, |F|)
    ensures LastStart(p, G, Load, i) == LastStart(p, F, Load, i)
  {
    if i > 0 {
      ShareStart(p, F, G, |F|, Load, i - 1);
      hide StartAt;
      LastStartSame(p, F, G, i - 1);
    }
  }

  /** No cycle opens at or after the last load visit's entry. */
  lemma NoneAfterLast(p: Params, F: seq<Fix>, a: nat, y: Cycle)
    requires Sorted(F) && a < |F| && LastStart(p, F, Load, |F|) == a && y in Table(p, F)
    ensures y.start < F[a].ts
  {
    hide CycleAt;
    var s :| 0 <= s < |F| && CycleAt(p, F, s) == Some(y);
    CycleStart(p, F, s);
    ClosedBy(p, F, s);
    LongStarts(p, F, Load, NextLong(p, F, Load, s + 1));
    LongStarts(p, F, Load, s);
    hide StartAt;
    assert NextLong(p, F, Load, s + 1) <= a;
  }

  lemma PendingHere(p: Params, G: seq<Fix>, a: nat)
    requires a < |G| && LastStart(p, G, Load, |G|) == a && G[|G|-1].In(Load)
    ensures Pending(p, G) == if Long(p, G, Load, a) then -1 else a
  {
    hide Long, LastStart;
  }

  lemma {:induction false} OpenAnchor(p: Params, F: seq<Fix>, G: seq<Fix>, a: nat)
    requires Sorted(F) && Sorted(G) && 0 < |F| && Share(F, G, |F|) && p.Ok() && p.cap.Some?
    requires a == Anchor(p, F, true, None) && LastStart(p, G, Load, |G|) == a && G[|G|-1].In(Load)
    requires G[|G|-1].ts - G[a].ts < p.cap.value
    ensures Anchor(p, G, true, None) == a
  {
    hide StartAt, Long, LastLong, LastOpener, LastStart, Pending;
    PendingHere(p, G, a);
    LastOpenerIsLong(p, G, |G|);
    if Long(p, G, Load, a) {
      OpenerIsLast(p, G, a);
    } else {
      LastLongIsEarlier(p, G, a);
      OpenDead(p, F, G, a);
    }
  }

  /** What counted before the visit in progress is out of its reach while that does not count. */
  lemma {:induction false} OpenDead(p: Params, F: seq<Fix>, G: seq<Fix>, a: nat)
    requires Sorted(F) && Sorted(G) && 0 < |F| && Share(F, G, |F|) && p.Ok()
    requires a == Anchor(p, F, true, None) && a < |G| && StartAt(p, G, Load, a) && !Long(p, G, Load, a)
    ensures var o := LastLong(p, G, Load, a); o >= 0 ==> !MayStillClose(p, G, o)
  {
    hide StartAt, Long, LastLong, MayStillClose;
    AnchorReach(p, F);
    ShareAt(F, G, |F|, a);
    if Long(p, F, Load, a) {
      LongGrows(p, F, G, Load, a);
    }
    var o := LastLong(p, G, Load, a);
    if o >= 0 {
      ShareLastLong(p, F, G, |F|, Load, a, a);
      ShareAt(F, G, |F|, o);
      OutOfReach(p, G, a, o);
    }
  }

  lemma OpenerIsLast(p: Params, G: seq<Fix>, a: nat)
    requires a < |G| && LastStart(p, G, Load, |G|) == a && Long(p, G, Load, a)
    ensures LastLong(p, G, Load, |G|) == a
  {
    var o := LastLong(p, G, Load, |G|);
    LongStarts(p, G, Load, o);
  }

  lemma LastLongIsEarlier(p: Params, G: seq<Fix>, a: nat)
    requires a < |G| && LastStart(p, G, Load, |G|) == a && !Long(p, G, Load, a)
    ensures LastLong(p, G, Load, |G|) == LastLong(p, G, Load, a)
  {
    forall m | a <= m < |G| ensures !Long(p, G, Load, m) {
    }
    LastLongSkips(p, G, Load, a, |G|);
  }

  /** While the load visit at the restart point goes on, within the cap, a whole analysis gives
      the same cycles and the same restart point. */
  lemma {:induction false} StillOpen(p: Params, F: seq<Fix>, G: seq<Fix>)
    requires Sorted(F) && Sorted(G) && 0 < |F| && Share(F, G, |F|) && p.Ok() && p.cap.Some?
    requires FullResume(p, F).entryKnown && FullResume(p, F).inside
    requires forall j :: |F| <= j < |G| ==> G[j].In(Load)
    requires G[|G|-1].ts - FullResume(p, F).ts < p.cap.value
    ensures FullResume(p, G) == FullResume(p, F)
    ensures SameBefore(p, F, G, FullResume(p, F).ts) ==> Table(p, G) == Table(p, F)
  {
    var a := Anchor(p, F, true, None);
    NoMoreStarts(p, F, G, |G|);
    ShareAt(F, G, |F|, |F| - 1);
    ShareAt(F, G, |F|, a);
    hide StartAt, Long, Table, Anchor;
    OpenAnchor(p, F, G, a);
    if SameBefore(p, F, G, FullResume(p, F).ts) {
      forall y: Cycle ensures y in Table(p, G) <==> y in Table(p, F) {
        if y in Table(p, F) {
          NoneAfterLast(p, F, a, y);
        }
        if y in Table(p, G) {
          NoneAfterLast(p, G, a, y);
        }
      }
    }
  }
}

/** Rebuilding one asset's stored cycles from its stored positions: the choice of the window, and
    why what it leaves alone and what it rebuilds together make the whole table. */
module Recompute {
  import opened Wrappers
  import opened Track
  import opened Cycles
  import opened Analysis
  import opened Locality
  import opened Restart
  import opened Finality

  const LOOKBACK_MARGIN := 60_000_000

  /** How far back of a late fix a rebuild begins when the cursor's load entry cannot be used. */
  function Lookback(p: Params): int {
    Reach(p) + LOOKBACK_MARGIN
  }

  /** The first fix at or after time `t`. */
  function FirstFrom(F: seq<Fix>, t: int): (r: nat)
    ensures r <= |F| && (forall i :: 0 <= i < r ==> F[i].ts < t) && (r < |F| ==> F[r].ts >= t)
  {
    FirstFromAfter(F, t, 0)
  }

  function FirstFromAfter(F: seq<Fix>, t: int, i: nat): (r: nat)
    requires i <= |F| && forall j :: 0 <= j < i ==> F[j].ts < t
    ensures r <= |F| && (forall j :: 0 <= j < r ==> F[j].ts < t) && (r < |F| ==> F[r].ts >= t)
    decreases |F| - i
  {
    if i == |F| || F[i].ts >= t then i else FirstFromAfter(F, t, i + 1)
  }

  /** Where the fixes an analysis from `c` reads begin: the `minExit` before `c`, and one more. */
  function LeadIndex(p: Params, F: seq<Fix>, c: int): (lo: nat)
    ensures lo <= |F| && (0 < |F| ==> lo < |F|)
  {
    var k := FirstFrom(F, c - p.minExit);
    if k > 0 then k - 1 else 0
  }

  /** A rebuild starting at `ts` starts at the track's first fix when nothing precedes `ts`. */
  function StartAtTime(F: seq<Fix>, ts: int): (int, bool) {
    if 0 < |F| && F[0].ts >= ts then (F[0].ts, true) else (ts, false)
  }

  // ---- the tracks before and after new fixes --------------------------------------------------

  /** A track that grew by fixes at or after `t` only. */
  ghost predicate GrewFrom(F: seq<Fix>, G: seq<Fix>, t: int) {
    Sorted(F) && Sorted(G) && Includes(G, F) && forall g :: g in G && g.ts < t ==> g in F
  }

  /** Two tracks with the same fixes before time `t`. */
  ghost predicate Agree(F: seq<Fix>, G: seq<Fix>, t: int) {
    Sorted(F) && Sorted(G) && forall g: Fix {:trigger g in F} {:trigger g in G} :: g.ts < t ==> (g in F <==> g in G)
  }

  lemma SameIndex(F: seq<Fix>, G: seq<Fix>, t: int, i: nat)
    requires Agree(F, G, t) && Share(F, G, i) && i <= FirstFrom(F, t) && i <= FirstFrom(G, t)
    ensures FirstFrom(F, t) == FirstFrom(G, t) && Share(F, G, FirstFrom(F, t))
    decreases |F| - i
  {
    var n, m := FirstFrom(F, t), FirstFrom(G, t);
    if i < n || i < m {
      if i < n {
        NextShared(F, G, t, i);
      } else {
        NextShared(G, F, t, i);
      }
      assert F[..i+1] == F[..i] + [F[i]];
      assert G[..i+1] == G[..i] + [G[i]];
      SameIndex(F, G, t, i + 1);
    }
  }

  lemma {:induction false} NextShared(F: seq<Fix>, G: seq<Fix>, t: int, i: nat)
    requires Agree(F, G, t) && Share(F, G, i) && i < FirstFrom(F, t) && i <= FirstFrom(G, t)
    ensures i < FirstFrom(G, t) && F[i] == G[i]
  {
    hide FirstFrom;
    assert F[i] in G;
    var j :| 0 <= j < |G| && G[j] == F[i];
    NotShared(F, G, i, j);
    assert i < FirstFrom(G, t) by {
      assert G[i].ts <= G[j].ts;
    }
    assert G[i] in F;
    var k :| 0 <= k < |F| && F[k] == G[i];
    NotShared(G, F, i, k);
    assert F[i].ts <= F[k].ts && G[i].ts <= G[j].ts;
  }

  lemma NotShared(F: seq<Fix>, G: seq<Fix>, i: nat, j: nat)
    requires Sorted(F) && Share(F, G, i) && i < |F| && j < |G| && G[j] == F[i]
    ensures j >= i
  {
    if j < i {
      ShareAt(F, G, i, j);
    }
  }

  /** No cycle closed `h` or more before time `t` takes a dump visit still open then. */
  ghost predicate CalmBy(p: Params, F: seq<Fix>, t: int, h: int) {
    Calm(p, F, FirstFrom(F, t), t, h)
  }

  lemma CalmByLess(p: Params, F: seq<Fix>, t: int, h: int, g: int)
    requires h <= g
    ensures CalmBy(p, F, t, h) ==> CalmBy(p, F, t, g)
  {
    hide Calm;
    if CalmBy(p, F, t, h) {
      CalmLess(p, F, FirstFrom(F, t), t, h, g);
    }
  }

  /** At no time does a closed cycle take a dump visit that was left open so long. */
  ghost predicate Quiet(p: Params, F: seq<Fix>) {
    forall t :: CalmBy(p, F, t, p.minVisit)
  }

  lemma QuietCalm(p: Params, F: seq<Fix>, t: int)
    requires Quiet(p, F) && p.Ok()
    ensures CalmBy(p, F, t, p.minVisit + p.minExit)
  {
    hide CalmBy;
    CalmByLess(p, F, t, p.minVisit, p.minVisit + p.minExit);
  }

  lemma {:induction false} QuietFirm(p: Params, F: seq<Fix>)
    requires Sorted(F) && 0 < |F| && p.Ok() && Quiet(p, F)
    ensures Firm(p, F)
  {
    hide Calm, Firm;
    var t := NextTs(F);
    assert CalmBy(p, F, t, p.minVisit);
    assert FirstFrom(F, t) == |F|;
    CalmIsFirm(p, F);
  }

  /** A track in which no dump visit is under way when a load visit begins is quiet. */
  lemma {:induction false} ClearQuiet(p: Params, F: seq<Fix>)
    requires Sorted(F) && p.Ok() && Clear(p, F)
    ensures Quiet(p, F)
  {
    hide Clear, Calm;
    forall t ensures CalmBy(p, F, t, p.minVisit) {
      ClearIsCalm(p, F, FirstFrom(F, t), t, p.minVisit);
    }
  }

  /** Growth after a track's last fix is an extension. */
  lemma {:induction false} GrewAfter(F: seq<Fix>, G: seq<Fix>)
    requires 0 < |F| && GrewFrom(F, G, F[|F|-1].ts + 1)
    ensures Share(F, G, |F|)
  {
    var t := F[|F|-1].ts + 1;
    SameIndex(F, G, t, 0);
    assert FirstFrom(F, t) == |F| by {
      assert forall i :: 0 <= i < |F| ==> F[i].ts < t;
    }
  }

  /** Tracks that agree before `t`, and both go on from there. */
  lemma {:induction false} AgreeIndex(F: seq<Fix>, G: seq<Fix>, t: int)
    requires Agree(F, G, t) && LastsTo(F, t) && LastsTo(G, t)
    ensures var n := FirstFrom(F, t);
            n < |F| && n < |G| && Share(F, G, n) && F[n].ts >= t && G[n].ts >= t && FirstFrom(G, t) == n
  {
    SameIndex(F, G, t, 0);
  }

  /** The track has a fix at or after time `t`. */
  ghost predicate LastsTo(F: seq<Fix>, t: int) {
    0 < |F| && t <= F[|F|-1].ts
  }

  lemma {:induction false} GrewLate(F: seq<Fix>, G: seq<Fix>, t: int)
    requires GrewFrom(F, G, t) && LastsTo(F, t)
    ensures Agree(F, G, t) && LastsTo(G, t)
  {
    assert F[|F|-1] in G;
    var j :| 0 <= j < |G| && G[j] == F[|F|-1];
  }

  // ---- the window a rebuild needs -------------------------------------------------------------

  /** A rebuild of `G` from `c` finds every cycle from there on when a load visit at the track's
      own first fix is known to start there. */
  ghost predicate Begins(p: Params, G: seq<Fix>, c: int, known: bool) {
    0 < |G| && (G[0].ts >= c && StartAt(p, G, Load, 0) ==> known)
  }

  /** It finds the restart point too when the window reaches back to it. */
  ghost predicate GoodWindow(p: Params, G: seq<Fix>, c: int, known: bool) {
    Begins(p, G, c, known) && Reaches(p, G, c)
  }

  /** From the cursor, when fixes only followed the track. */
  lemma {:induction false} CursorWindow(p: Params, F: seq<Fix>, G: seq<Fix>)
    requires p.Ok() && 0 < |F| && GrewFrom(F, G, F[|F|-1].ts + 1)
    ensures var r := FullResume(p, F);
            GoodWindow(p, G, r.ts, r.entryKnown) && (Firm(p, F) ==> SameBefore(p, F, G, r.ts))
  {
    GrewAfter(F, G);
    ExtendRestart(p, F, G);
    if Firm(p, F) {
      FirmSame(p, F, G);
    }
    FirstKnown(p, F, G);
  }

  /** From the cursor, when late fixes came only `minVisit` or more past its load entry. */
  lemma {:induction false} CursorLateWindow(p: Params, F: seq<Fix>, G: seq<Fix>, d: int)
    requires p.Ok() && GrewFrom(F, G, d) && LastsTo(F, d)
    requires FullResume(p, F).ts + p.minVisit <= d
    ensures var r := FullResume(p, F);
            GoodWindow(p, G, r.ts, r.entryKnown) && (CalmBy(p, F, d, p.minVisit) ==> SameBefore(p, F, G, r.ts))
  {
    var n := FirstFrom(F, d);
    GrewLate(F, G, d);
    AgreeIndex(F, G, d);
    assert FullResume(p, F).entryKnown;
    LateRestart(p, F, G, n);
    if CalmBy(p, F, d, p.minVisit) {
      LateSame(p, F, G, n, d);
    }
  }

  /** From the lookback before a late fix, or the first fix. */
  lemma {:induction false} LookbackWindow(p: Params, F: seq<Fix>, G: seq<Fix>, d: int)
    requires p.Ok() && p.cap.Some? && GrewFrom(F, G, d) && LastsTo(F, d)
    ensures var (c, known) := StartAtTime(G, d - Lookback(p)); GoodWindow(p, G, c, known)
    ensures CalmBy(p, F, d, p.minVisit + p.minExit) ==> SameBefore(p, F, G, d - Lookback(p))
  {
    var n := FirstFrom(F, d);
    GrewLate(F, G, d);
    AgreeIndex(F, G, d);
    assert G[|G|-1].ts >= G[n].ts;
    RestartWithinReach(p, G);
    RestartAtLeastFirst(p, G);
    if CalmBy(p, F, d, p.minVisit + p.minExit) {
      FarSame(p, F, G, n, d, d - Lookback(p));
    }
  }

  lemma RestartAtLeastFirst(p: Params, G: seq<Fix>)
    requires Sorted(G) && 0 < |G|
    ensures FullResume(p, G).ts >= G[0].ts
  {
    hide Anchor, StartAt;
    var a := Anchor(p, G, true, None);
  }

  lemma OpensAtFix(p: Params, F: seq<Fix>, G: seq<Fix>, y: Cycle)
    requires Sorted(G) && Includes(G, F) && 0 < |G| && y in Table(p, F)
    ensures y.start >= G[0].ts
  {
    hide CycleAt;
    var s :| 0 <= s < |F| && CycleAt(p, F, s) == Some(y);
    CycleStart(p, F, s);
    assert F[s] in G;
  }

  /** A restart point that is no known load entry is not the entry of a visit at the first fix. */
  lemma {:induction false} FirstKnown(p: Params, F: seq<Fix>, G: seq<Fix>)
    requires p.Ok() && Sorted(F) && Sorted(G) && 0 < |F| && Share(F, G, |F|)
    ensures G[0].ts >= FullResume(p, F).ts && StartAt(p, G, Load, 0) ==> FullResume(p, F).entryKnown
  {
    ShareAt(F, G, |F|, 0);
    var a := Anchor(p, F, true, None);
    if a < 0 && G[0].ts >= FullResume(p, F).ts && StartAt(p, G, Load, 0) {
      assert |F| == 1;
      assert F[0].In(Load);
      OneFixPends(p, F);
      assert false;
    }
  }

  lemma OneFixPends(p: Params, F: seq<Fix>)
    requires p.Ok() && |F| == 1 && F[0].In(Load)
    ensures Anchor(p, F, true, None) == 0
  {
    assert StartAt(p, F, Load, 0);
    assert LastStart(p, F, Load, 1) == 0;
    assert VisitEnd(p, F, Load, 0) == 1;
    assert Pending(p, F) == 0;
  }
}

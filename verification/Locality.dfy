/** What the visits of a track depend on.

    Two tracks that agree on their first fixes agree on the visits those fixes settle; and a
    track cut off at its front, but for a short lead-in, has the visits of the whole track from
    there on.  These two facts carry every argument about rebuilding a window. */
module Locality {
  import opened Track

  /** The two tracks have the same first `n` fixes. */
  ghost predicate Share(F: seq<Fix>, G: seq<Fix>, n: nat) {
    n <= |F| && n <= |G| && F[..n] == G[..n]
  }

  lemma ShareAt(F: seq<Fix>, G: seq<Fix>, n: nat, i: nat)
    requires Share(F, G, n) && i < n
    ensures F[i] == G[i]
  {
    assert F[i] == F[..n][i] == G[..n][i] == G[i];
  }

  lemma ShareLess(F: seq<Fix>, G: seq<Fix>, n: nat, m: nat)
    requires Share(F, G, n) && m <= n
    ensures Share(F, G, m)
  {
    assert F[..m] == F[..n][..m];
    assert G[..m] == G[..n][..m];
  }

  // ---- agreement on a prefix ------------------------------------------------------------------

  lemma ShareStart(p: Params, F: seq<Fix>, G: seq<Fix>, n: nat, k: Kind, i: nat)
    requires Share(F, G, n) && i < n
    ensures StartAt(p, F, k, i) == StartAt(p, G, k, i)
  {
    ShareAt(F, G, n, i);
    forall j | 0 <= j <= i ensures F[j] == G[j] {
      ShareAt(F, G, n, j);
    }
  }

  /** As long as the next start of `F` lies in the shared part, it is the next start of `G`. */
  lemma {:induction false} ShareNextStart(p: Params, F: seq<Fix>, G: seq<Fix>, n: nat, k: Kind, i: nat)
    requires Share(F, G, n) && i <= n
    ensures NextStart(p, F, k, i) < n ==> NextStart(p, G, k, i) == NextStart(p, F, k, i)
    ensures NextStart(p, F, k, i) >= n ==> NextStart(p, G, k, i) >= n
    decreases n - i
  {
    if i < n {
      ShareStart(p, F, G, n, k, i);
      if !StartAt(p, F, k, i) {
        ShareNextStart(p, F, G, n, k, i + 1);
      }
    }
  }

  lemma {:induction false} ShareLastIn(F: seq<Fix>, G: seq<Fix>, n: nat, k: Kind, i: nat)
    requires Share(F, G, n) && i <= n
    ensures LastIn(F, k, i) == LastIn(G, k, i)
    decreases i
  {
    if i > 0 {
      ShareAt(F, G, n, i - 1);
      if !F[i-1].In(k) {
        ShareLastIn(F, G, n, k, i - 1);
      }
    }
  }

  /** A visit followed by another start within the shared part is the same in both tracks. */
  lemma {:induction false} ShareVisit(p: Params, F: seq<Fix>, G: seq<Fix>, n: nat, k: Kind, s: nat, v: nat)
    requires Share(F, G, n) && s < v < n
    requires StartAt(p, F, k, s) && StartAt(p, F, k, v)
    ensures StartAt(p, G, k, s) && StartAt(p, G, k, v)
    ensures VisitEnd(p, F, k, s) == VisitEnd(p, G, k, s) <= v
    ensures Long(p, F, k, s) == Long(p, G, k, s)
  {
    ShareStart(p, F, G, n, k, s);
    ShareStart(p, F, G, n, k, v);
    ShareNextStart(p, F, G, n, k, s + 1);
    var e := NextStart(p, F, k, s + 1);
    assert e <= v;
    ShareLastIn(F, G, n, k, e);
    ShareAt(F, G, n, s);
    ShareAt(F, G, n, VisitEnd(p, F, k, s));
  }

  /** The next visit that counts is the same in both tracks up to one that counts in both. */
  lemma {:induction false} ShareNextLong(p: Params, F: seq<Fix>, G: seq<Fix>, n: nat, k: Kind, i: nat, v: nat)
    requires Share(F, G, n) && i <= v < n
    requires Long(p, F, k, v) && Long(p, G, k, v)
    ensures NextLong(p, F, k, i) == NextLong(p, G, k, i) <= v
    decreases v - i
  {
    hide StartAt, VisitEnd;
    if i < v {
      ShareStart(p, F, G, n, k, i);
      if StartAt(p, F, k, i) {
        ShareVisit(p, F, G, n, k, i, v);
      }
      if !Long(p, F, k, i) {
        ShareNextLong(p, F, G, n, k, i + 1, v);
      }
    }
  }

  /** No visit of kind `k` that began before `v` has fixes from `v` on. */
  ghost predicate ClearAt(p: Params, F: seq<Fix>, k: Kind, v: nat) {
    forall d :: 0 <= d < v && StartAt(p, F, k, d) ==> VisitEnd(p, F, k, d) <= v
  }

  // ---- a track cut off at its front -----------------------------------------------------------

  /** `W` is the track `F` without its first `lo` fixes. */
  ghost predicate Cut(F: seq<Fix>, lo: nat, W: seq<Fix>) {
    lo <= |F| && |W| == |F| - lo && forall i :: lo <= i < |F| ==> F[i] == W[i - lo]
  }

  /** Cutting the first `lo` fixes off leaves every start from time `c` on as it was: the cut
      keeps a fix more than `minExit` before `c`. */
  ghost predicate LeadsIn(p: Params, F: seq<Fix>, lo: nat, c: int) {
    lo <= |F| && (lo > 0 ==> lo < |F| && F[lo].ts < c - p.minExit)
  }

  /** Fix `i` of `F` is at or after `c`, and survives the cut. */
  ghost predicate After(F: seq<Fix>, lo: nat, c: int, i: nat) {
    lo <= i <= |F| && (i < |F| ==> F[i].ts >= c)
  }

  lemma {:induction false} CutStart(p: Params, F: seq<Fix>, lo: nat, c: int, W: seq<Fix>, k: Kind, i: nat)
    requires Sorted(F) && Cut(F, lo, W) && LeadsIn(p, F, lo, c) && p.Ok()
    requires After(F, lo, c, i) && i < |F|
    ensures StartAt(p, W, k, i - lo) == StartAt(p, F, k, i)
  {
    if StartAt(p, W, k, i - lo) {
      forall j | 0 <= j < i && F[j].In(k)
        ensures j + 1 < i && F[i].ts - F[j+1].ts >= p.minExit
      {
        if j >= lo {
          assert W[j - lo].In(k);
          assert W[j - lo + 1] == F[j+1];
        } else {
          assert j + 1 < lo ==> F[j+1].ts < F[lo].ts;
        }
      }
    }
    if StartAt(p, F, k, i) {
      forall j | 0 <= j < i - lo && W[j].In(k)
        ensures j + 1 < i - lo && W[i - lo].ts - W[j+1].ts >= p.minExit
      {
        assert F[j + lo].In(k);
        assert W[j+1] == F[j + lo + 1];
      }
    }
  }

  lemma {:induction false} CutNextStart(p: Params, F: seq<Fix>, lo: nat, c: int, W: seq<Fix>, k: Kind, i: nat)
    requires Sorted(F) && Cut(F, lo, W) && LeadsIn(p, F, lo, c) && p.Ok() && After(F, lo, c, i)
    ensures NextStart(p, W, k, i - lo) == NextStart(p, F, k, i) - lo
    decreases |F| - i
  {
    if i < |F| {
      CutStart(p, F, lo, c, W, k, i);
      if !StartAt(p, F, k, i) {
        CutNextStart(p, F, lo, c, W, k, i + 1);
      }
    }
  }

  lemma {:induction false} CutLastIn(F: seq<Fix>, lo: nat, W: seq<Fix>, k: Kind, i: nat)
    requires Cut(F, lo, W) && lo <= i <= |F| && LastIn(F, k, i) >= lo
    ensures LastIn(W, k, i - lo) == LastIn(F, k, i) - lo
    decreases i
  {
    assert F[i-1] == W[i - lo - 1];
    if !F[i-1].In(k) {
      CutLastIn(F, lo, W, k, i - 1);
    }
  }

  lemma {:induction false} CutVisitEnd(p: Params, F: seq<Fix>, lo: nat, c: int, W: seq<Fix>, k: Kind, s: nat)
    requires Sorted(F) && Cut(F, lo, W) && LeadsIn(p, F, lo, c) && p.Ok() && After(F, lo, c, s)
    requires StartAt(p, F, k, s)
    ensures StartAt(p, W, k, s - lo)
    ensures VisitEnd(p, W, k, s - lo) == VisitEnd(p, F, k, s) - lo
  {
    CutStart(p, F, lo, c, W, k, s);
    CutNextStart(p, F, lo, c, W, k, s + 1);
    CutLastIn(F, lo, W, k, NextStart(p, F, k, s + 1));
  }

  lemma {:induction false} CutVisit(p: Params, F: seq<Fix>, lo: nat, c: int, W: seq<Fix>, k: Kind, s: nat)
    requires Sorted(F) && Cut(F, lo, W) && LeadsIn(p, F, lo, c) && p.Ok() && After(F, lo, c, s)
    requires StartAt(p, F, k, s)
    ensures StartAt(p, W, k, s - lo)
    ensures VisitEnd(p, W, k, s - lo) == VisitEnd(p, F, k, s) - lo
    ensures ExitTs(p, W, k, s - lo) == ExitTs(p, F, k, s)
    ensures Long(p, W, k, s - lo) == Long(p, F, k, s)
  {
    CutVisitEnd(p, F, lo, c, W, k, s);
    hide VisitEnd, StartAt;
    var e := VisitEnd(p, F, k, s);
    assert F[if e < |F| then e else |F| - 1] == W[if e < |F| then e - lo else |F| - 1 - lo];
  }

  lemma {:induction false} CutNextLong(p: Params, F: seq<Fix>, lo: nat, c: int, W: seq<Fix>, k: Kind, i: nat)
    requires Sorted(F) && Cut(F, lo, W) && LeadsIn(p, F, lo, c) && p.Ok() && After(F, lo, c, i)
    ensures NextLong(p, W, k, i - lo) == NextLong(p, F, k, i) - lo
    decreases |F| - i
  {
    if i < |F| {
      CutStart(p, F, lo, c, W, k, i);
      if StartAt(p, F, k, i) {
        CutVisit(p, F, lo, c, W, k, i);
      }
      hide StartAt, VisitEnd, LeadsIn;
      assert Long(p, W, k, i - lo) == Long(p, F, k, i);
      hide Long;
      if !Long(p, F, k, i) {
        CutNextLong(p, F, lo, c, W, k, i + 1);
      }
    }
  }

  // ---- what later or late fixes leave alone ---------------------------------------------------

  /** A visit followed by more fixes ends no sooner. */
  lemma {:induction false} VisitGrows(p: Params, F: seq<Fix>, G: seq<Fix>, k: Kind, v: nat)
    requires Share(F, G, |F|) && StartAt(p, F, k, v)
    ensures StartAt(p, G, k, v)
    ensures VisitEnd(p, G, k, v) >= VisitEnd(p, F, k, v)
  {
    var n := |F|;
    ShareStart(p, F, G, n, k, v);
    ShareNextStart(p, F, G, n, k, v + 1);
    hide StartAt;
    var e := VisitEnd(p, F, k, v);
    ShareAt(F, G, n, e - 1);
    assert NextStart(p, G, k, v + 1) > e - 1;
    EndsPast(p, G, k, v, e - 1);
  }

  /** A visit ends past any inside fix before the next visit's start. */
  lemma EndsPast(p: Params, G: seq<Fix>, k: Kind, v: nat, j: nat)
    requires StartAt(p, G, k, v) && v <= j < NextStart(p, G, k, v + 1) && G[j].In(k)
    ensures VisitEnd(p, G, k, v) > j
  {
    hide StartAt, NextStart;
  }

  lemma TimeAtGrows(F: seq<Fix>, G: seq<Fix>, i: nat, j: nat)
    requires Share(F, G, |F|) && Sorted(G) && 0 < |F| && i <= j && i <= |F|
    ensures TimeAt(F, i) <= TimeAt(G, j)
  {
    ShareAt(F, G, |F|, |F| - 1);
    if i < |F| {
      ShareAt(F, G, |F|, i);
    }
  }

  /** A visit that counts still counts when more fixes follow the track. */
  lemma {:induction false} LongGrows(p: Params, F: seq<Fix>, G: seq<Fix>, k: Kind, v: nat)
    requires Share(F, G, |F|) && Sorted(G) && Long(p, F, k, v)
    ensures Long(p, G, k, v)
  {
    VisitGrows(p, F, G, k, v);
    ShareAt(F, G, |F|, v);
    TimeAtGrows(F, G, VisitEnd(p, F, k, v), VisitEnd(p, G, k, v));
  }

  /** The first inside fix `j` after a visit's fixes up to `e` were left, if it is still in the
      visit, came back less than `minExit` after. */
  lemma {:induction false} RejoinsSoon(p: Params, F: seq<Fix>, k: Kind, s: nat, e: nat, j: nat)
    requires Sorted(F) && StartAt(p, F, k, s) && s < e < j < NextStart(p, F, k, s + 1)
    requires F[j].In(k) && forall i {:trigger F[i].In(k)} :: e <= i < j ==> !F[i].In(k)
    ensures F[j].ts - F[e].ts < p.minExit
  {
    assert !StartAt(p, F, k, j);
    var i :| 0 <= i < j && F[i].In(k) && !(i + 1 < j && F[j].ts - F[i+1].ts >= p.minExit);
    assert i + 1 <= e;
    assert F[i+1].ts <= F[e].ts;
  }

  /** The first inside fix from `i` on, up to and including `j`. */
  ghost function FirstIn(F: seq<Fix>, k: Kind, i: nat, j: nat): (r: nat)
    requires i <= j < |F| && F[j].In(k)
    ensures i <= r <= j && F[r].In(k)
    ensures forall m {:trigger F[m].In(k)} :: i <= m < r ==> !F[m].In(k)
    decreases j - i
  {
    if F[i].In(k) then i else FirstIn(F, k, i + 1, j)
  }

  /** A visit that is not over in the shared part reaches, in `G`, at least its last fix there. */
  lemma {:induction false} OpenAtCut(p: Params, F: seq<Fix>, G: seq<Fix>, n: nat, k: Kind, v: nat)
    requires Share(F, G, n) && v < n && StartAt(p, F, k, v) && NextStart(p, F, k, v + 1) >= n
    ensures StartAt(p, G, k, v) && NextStart(p, G, k, v + 1) >= n
    ensures v < LastIn(F, k, n) + 1 <= VisitEnd(p, G, k, v)
  {
    ShareStart(p, F, G, n, k, v);
    ShareNextStart(p, F, G, n, k, v + 1);
    var r := LastIn(F, k, n);
    ShareAt(F, G, n, v);
    assert r >= v;
    ShareAt(F, G, n, r);
  }

  lemma ExitNoSooner(p: Params, F: seq<Fix>, k: Kind, v: nat, e: nat)
    requires Sorted(F) && StartAt(p, F, k, v) && e <= VisitEnd(p, F, k, v) && e < |F|
    ensures ExitTs(p, F, k, v) >= F[e].ts
  {
    hide StartAt, VisitEnd;
    var g := VisitEnd(p, F, k, v);
    assert g < |F| ==> F[g].ts >= F[e].ts;
  }

  /** Whether a visit counts is settled once the fixes reach `minVisit + minExit` past its
      entry, whatever comes after. */
  lemma {:induction false} LongSettled(p: Params, F: seq<Fix>, G: seq<Fix>, n: nat, k: Kind, v: nat)
    requires Sorted(F) && Sorted(G) && Share(F, G, n) && v < n && n < |F| && n < |G|
    requires F[v].ts + p.minVisit + p.minExit <= F[n].ts && F[v].ts + p.minVisit + p.minExit <= G[n].ts
    requires p.Ok() && Long(p, F, k, v)
    ensures Long(p, G, k, v)
  {
    var next := NextStart(p, F, k, v + 1);
    if next < n {
      ShareVisit(p, F, G, n, k, v, next);
    } else {
      OpenAtCut(p, F, G, n, k, v);
      OpenAtCut(p, F, F, n, k, v);
      SettledExit(p, F, G, n, k, v);
      ShareAt(F, G, n, v);
    }
  }

  lemma {:induction false} SettledExit(p: Params, F: seq<Fix>, G: seq<Fix>, n: nat, k: Kind, v: nat)
    requires Sorted(F) && Sorted(G) && Share(F, G, n) && v < n && n < |F| && n < |G|
    requires F[v].ts + p.minVisit + p.minExit <= F[n].ts && F[v].ts + p.minVisit + p.minExit <= G[n].ts
    requires p.Ok() && Long(p, F, k, v) && StartAt(p, G, k, v)
    requires NextStart(p, F, k, v + 1) >= n
    requires v < LastIn(F, k, n) + 1 <= VisitEnd(p, G, k, v)
    requires LastIn(F, k, n) + 1 <= VisitEnd(p, F, k, v)
    ensures ExitTs(p, G, k, v) >= F[v].ts + p.minVisit
  {
    var e := LastIn(F, k, n) + 1;
    ExitNoSooner(p, G, k, v, e);
    if e < n {
      ShareAt(F, G, n, e);
      if e < VisitEnd(p, F, k, v) {
        var j := RejoinsAfter(p, F, n, k, v, e);
        hide StartAt, VisitEnd, NextStart, LastIn;
        assert F[j].ts >= F[n].ts;
      }
    }
  }

  /** A visit with no inside fix from `e` to `n` that goes on past `n` is rejoined soon after. */
  lemma {:induction false} RejoinsAfter(p: Params, F: seq<Fix>, n: nat, k: Kind, v: nat, e: nat) returns (j: nat)
    requires Sorted(F) && StartAt(p, F, k, v) && v < e < n < |F| && LastIn(F, k, n) + 1 == e < VisitEnd(p, F, k, v)
    ensures n <= j < |F| && F[j].In(k) && F[j].ts - F[e].ts < p.minExit && F[e-1].In(k)
  {
    j := FirstIn(F, k, e, VisitEnd(p, F, k, v) - 1);
    assert j >= n && F[e-1].In(k);
    hide FirstIn, LastIn;
    RejoinsSoon(p, F, k, v, e, j);
  }

  /** Every fix of `F` is also in `G`. */
  ghost predicate Includes(G: seq<Fix>, F: seq<Fix>) {
    forall f :: f in F ==> f in G
  }

  /** A visit that counts still counts when fixes are added at least `minVisit` past its entry. */
  lemma {:induction false} LongKept(p: Params, F: seq<Fix>, G: seq<Fix>, n: nat, k: Kind, v: nat)
    requires Sorted(F) && Sorted(G) && Share(F, G, n) && Includes(G, F) && v < n && n < |F| && n < |G|
    requires F[v].ts + p.minVisit <= F[n].ts && F[v].ts + p.minVisit <= G[n].ts
    requires p.Ok() && Long(p, F, k, v)
    ensures Long(p, G, k, v)
  {
    var next := NextStart(p, F, k, v + 1);
    if next < n {
      ShareVisit(p, F, G, n, k, v, next);
    } else {
      OpenAtCut(p, F, G, n, k, v);
      OpenAtCut(p, F, F, n, k, v);
      KeptExit(p, F, G, n, k, v);
      ShareAt(F, G, n, v);
    }
  }

  lemma {:induction false} KeptExit(p: Params, F: seq<Fix>, G: seq<Fix>, n: nat, k: Kind, v: nat)
    requires Sorted(F) && Sorted(G) && Share(F, G, n) && Includes(G, F) && v < n && n < |F| && n < |G|
    requires F[v].ts + p.minVisit <= G[n].ts
    requires p.Ok() && Long(p, F, k, v) && StartAt(p, G, k, v)
    requires NextStart(p, F, k, v + 1) >= n && NextStart(p, G, k, v + 1) >= n
    requires v < LastIn(F, k, n) + 1 <= VisitEnd(p, G, k, v)
    requires LastIn(F, k, n) + 1 <= VisitEnd(p, F, k, v)
    ensures ExitTs(p, G, k, v) >= F[v].ts + p.minVisit
  {
    var e := LastIn(F, k, n) + 1;
    ExitNoSooner(p, G, k, v, e);
    if e < n {
      ShareAt(F, G, n, e);
      if e < VisitEnd(p, F, k, v) {
        var j := RejoinsAfter(p, F, n, k, v, e);
        hide LastIn;
        KeptReach(p, F, G, n, k, v, e, j);
      }
    }
  }

  lemma {:induction false} KeptReach(p: Params, F: seq<Fix>, G: seq<Fix>, n: nat, k: Kind, v: nat, e: nat, j: nat)
    requires Sorted(F) && Sorted(G) && Share(F, G, n) && Includes(G, F) && v < e < n <= j < |F| && n < |G|
    requires StartAt(p, G, k, v) && NextStart(p, G, k, v + 1) >= n
    requires F[e-1].In(k) && F[j].In(k) && F[j].ts - F[e].ts < p.minExit
    ensures ExitTs(p, G, k, v) >= G[n].ts
  {
    assert F[j] in G;
    var i :| 0 <= i < |G| && G[i] == F[j];
    ShareAt(F, G, n, e);
    ShareAt(F, G, n, e - 1);
    assert i >= n by {
      if i < n {
        ShareAt(F, G, n, i);
      }
    }
    forall m | v < m <= i
      ensures !StartAt(p, G, k, m)
    {
      if m >= n {
        assert G[e-1].In(k);
        assert G[m].ts <= G[i].ts;
      }
    }
    assert NextStart(p, G, k, v + 1) > i;
    assert G[i].In(k);
    assert VisitEnd(p, G, k, v) > i;
    ExitNoSooner(p, G, k, v, i);
  }
}

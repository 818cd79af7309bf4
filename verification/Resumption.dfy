/** Exactly when the restart point can be trusted.

    A track's restart point is meant to split every longer track: the cycles opened before it are
    those of the track so far, and the rest come from the window there.  That is so for every
    extension of the track if and only if the track is firm.  Likewise, the cycles settled before a
    late fix are meant to stay; that is so for every late fix if and only if the track is calm there. */
module Resumption {
  import opened Wrappers
  import opened Track
  import opened Cycles
  import opened Analysis
  import opened Locality
  import opened Restart
  import opened Finality
  import opened Recompute
  import opened Refresh

  /** The cycles of `G` are those of `F` opened before its restart point, and those of the window
      there. */
  ghost predicate ResumesTo(p: Params, F: seq<Fix>, G: seq<Fix>)
    requires 0 < |F|
  {
    var r := FullResume(p, F);
    Table(p, G) == Replaced(Table(p, F), Found(p, G, r.ts, r.entryKnown), r.ts)
  }

  /** The window at the restart point gives the rest, in every case. */
  lemma {:induction false} ResumeIffSame(p: Params, F: seq<Fix>, G: seq<Fix>)
    requires Sorted(F) && 0 < |F| && Extends(F, G) && p.Ok()
    ensures ResumesTo(p, F, G) <==> SameBefore(p, F, G, FullResume(p, F).ts)
  {
    var r := FullResume(p, F);
    FirstKnown(p, F, G);
    LeadWindow(p, G, r.ts, r.entryKnown);
    hide FullResume, Table, CycleList, StartAt, LeadIndex;
    var lo := LeadIndex(p, G, r.ts);
    forall y
      ensures y in Found(p, G, r.ts, r.entryKnown) <==> y in Table(p, G) && y.start >= r.ts
    {
      WindowCycles(p, G, lo, r.ts, G[lo..], r.entryKnown, y);
    }
  }

  // ---- a dump visit that is still open --------------------------------------------------------

  /** The track breaks off before time `t`, with `n` fixes. */
  ghost predicate BreaksOff(F: seq<Fix>, n: nat, t: int) {
    Sorted(F) && 0 < n <= |F| && F[n-1].ts < t && (n < |F| ==> F[n].ts >= t)
  }

  /** Its first `n` fixes and two more where a load zone overlaps a dump zone, at `t` and `m` later. */
  function MoreInside(F: seq<Fix>, n: nat, t: int, m: int): seq<Fix>
    requires n <= |F|
  {
    var x := Fix(t, 0.0, 0.0, Some(0.0), Some(0), Some(0), {});
    F[..n] + [x, x.(ts := t + m)]
  }

  lemma MoreParts(F: seq<Fix>, n: nat, t: int, m: int)
    requires BreaksOff(F, n, t) && m > 0
    ensures Parts(F, MoreInside(F, n, t, m), n, t)
  {
    var G := MoreInside(F, n, t, m);
    assert G[..n] == F[..n];
  }

  /** They lengthen the open visit of each kind. */
  lemma {:induction false} OpenLengthens(p: Params, F: seq<Fix>, n: nat, t: int, m: int, k: Kind)
    requires BreaksOff(F, n, t) && p.Ok() && m >= p.minVisit && OpenAt(p, F, k, n, t) >= 0
    ensures var G := MoreInside(F, n, t, m); var q := OpenAt(p, F, k, n, t);
            Long(p, G, k, q) && VisitEnd(p, G, k, q) == |G| && ExitTs(p, G, k, q) == t + m
  {
    var G, q := MoreInside(F, n, t, m), OpenAt(p, F, k, n, t);
    MoreParts(F, n, t, m);
    ShareStart(p, F, G, n, k, q);
    ShareAt(F, G, n, q);
    NoNewStart(p, F, n, t, m, k, q);
    hide StartAt;
    NextStartIs(p, G, k, q + 1, |G|);
    assert G[|G|-1].In(k);
  }

  lemma {:induction false} NoNewStart(p: Params, F: seq<Fix>, n: nat, t: int, m: int, k: Kind, q: nat)
    requires BreaksOff(F, n, t) && p.Ok() && m > 0 && OpenAt(p, F, k, n, t) == q
    ensures forall i :: q < i < |MoreInside(F, n, t, m)| ==> !StartAt(p, MoreInside(F, n, t, m), k, i)
  {
    var G := MoreInside(F, n, t, m);
    MoreParts(F, n, t, m);
    forall i | q < i < n ensures !StartAt(p, G, k, i) {
      ShareStart(p, F, G, n, k, i);
    }
    var e := LastIn(F, k, n) + 1;
    assert F[q].In(k) && 0 < e <= n;
    assert G[e-1] == F[e-1] && G[e-1].In(k);
    assert F[n-1].In(k) ==> e == n;
    assert e < n ==> G[e] == F[e];
    assert G[n].In(k);
    assert !StartAt(p, G, k, n);
    assert !StartAt(p, G, k, n + 1);
  }

  /** A cycle that takes it, or would, then has a dump visit that lasts to the last of them. */
  lemma {:induction false} TakesLonger(p: Params, F: seq<Fix>, n: nat, t: int, m: int, s: nat)
    requires BreaksOff(F, n, t) && p.Ok() && m >= p.minVisit && s < n && Long(p, F, Load, s) && !FirmBy(p, F, n, t, s)
    requires Long(p, MoreInside(F, n, t, m), Load, NextLong(p, F, Load, s + 1))
    ensures var G, v := MoreInside(F, n, t, m), NextLong(p, F, Load, s + 1);
            && s < v < n <= |G| && G[s] == F[s] && G[v] == F[v] && CycleAt(p, G, s).Some?
            && CycleAt(p, G, s).value.start == F[s].ts && CycleAt(p, G, s).value.end == F[v].ts
            && 0 <= OpenAt(p, F, Dump, n, t) < n
            && CycleAt(p, G, s).value.dump == t + m - F[OpenAt(p, F, Dump, n, t)].ts
  {
    var G, q := MoreInside(F, n, t, m), OpenAt(p, F, Dump, n, t);
    var v, e := NextLong(p, F, Load, s + 1), VisitEnd(p, F, Load, s);
    MoreParts(F, n, t, m);
    OpenLengthens(p, F, n, t, m, Dump);
    SameCloser(p, F, G, n, s, v);
    TakenThen(p, F, G, n, t, e, q);
    ShareAt(F, G, n, s);
    ShareAt(F, G, n, v);
    ShareAt(F, G, n, q);
    hide StartAt, Long, NextStart, CycleFrom, CycleAt, OpenAt, VisitEnd, NextLong, MoreInside, Sorted;
    CycleAtIs(p, G, s, e, q, v);
    CycleTimes(p, G, s, e, q, VisitEnd(p, G, Dump, q), v);
  }

  lemma {:induction false} TakenThen(p: Params, F: seq<Fix>, G: seq<Fix>, n: nat, t: int, e: nat, q: nat)
    requires Parts(F, G, n, t) && e <= q < n && q == OpenAt(p, F, Dump, n, t)
    requires NextLong(p, F, Dump, e) >= q && Long(p, G, Dump, q)
    ensures NextLong(p, G, Dump, e) == q
  {
    hide VisitEnd;
    forall j | e <= j < q ensures !Long(p, G, Dump, j) {
      ShareStart(p, F, G, n, Dump, j);
      if StartAt(p, F, Dump, j) {
        VisitSettled(p, F, G, n, t, Dump, j);
      }
    }
    hide Long, StartAt;
    NextLongIs(p, G, Dump, e, q);
  }

  lemma CycleTimes(p: Params, G: seq<Fix>, s: nat, e: nat, q: nat, de: nat, v: nat)
    requires Sorted(G) && s < e <= q < de <= |G| && q < v < |G|
    ensures var y := CycleFrom(p, G, s, e, q, de, v);
            y.start == G[s].ts && y.end == G[v].ts && y.dump == TimeAt(G, de) - G[q].ts
  {
    hide Queue, CreditedZone;
  }

  /** So no track has the cycles of both, one lasting longer than the other. */
  lemma {:induction false} OpenDisagrees(p: Params, F: seq<Fix>, n: nat, t: int, s: nat) returns (y: Cycle)
    requires BreaksOff(F, n, t) && p.Ok() && s < n && Long(p, F, Load, s) && !FirmBy(p, F, n, t, s)
    requires forall m :: m >= p.minVisit ==> Long(p, MoreInside(F, n, t, m), Load, NextLong(p, F, Load, s + 1))
    ensures var v := NextLong(p, F, Load, s + 1); v < n && y.start == F[s].ts && y.end == F[v].ts
    ensures y in Table(p, MoreInside(F, n, t, p.minVisit)) && y !in Table(p, MoreInside(F, n, t, p.minVisit + 1))
  {
    hide *;
    BreakInside(p, F, n, t);
    var G, H := MoreInside(F, n, t, p.minVisit), MoreInside(F, n, t, p.minVisit + 1);
    TakesLonger(p, F, n, t, p.minVisit, s);
    TakesLonger(p, F, n, t, p.minVisit + 1, s);
    y := CycleAt(p, G, s).value;
    InTable(p, G, s);
    MoreParts(F, n, t, p.minVisit + 1);
    PartsSorted(F, H, n, t);
    if y in Table(p, H) {
      TableAt(p, H, s, y);
    }
  }

  lemma BreakInside(p: Params, F: seq<Fix>, n: nat, t: int)
    requires BreaksOff(F, n, t) && p.Ok()
    ensures n <= |F| && p.minVisit > 0
  {
  }

  lemma PartsSorted(F: seq<Fix>, G: seq<Fix>, n: nat, t: int)
    requires Parts(F, G, n, t)
    ensures Sorted(G)
  {
  }

  lemma InTable(p: Params, G: seq<Fix>, s: nat)
    requires s < |G| && CycleAt(p, G, s).Some?
    ensures CycleAt(p, G, s).value in Table(p, G)
  {
    hide CycleAt;
  }

  /** A track has one cycle opening at a fix. */
  lemma TableAt(p: Params, G: seq<Fix>, s: nat, y: Cycle)
    requires Sorted(G) && s < |G| && y in Table(p, G) && y.start == G[s].ts
    ensures CycleAt(p, G, s) == Some(y)
  {
    hide CycleAt;
    var i :| 0 <= i < |G| && CycleAt(p, G, i) == Some(y);
    CycleStart(p, G, i);
  }

  // ---- exactly --------------------------------------------------------------------------------

  /** A track that is not firm is not the same, before its restart point, as both extensions. */
  lemma {:induction false} UnfirmDiffers(p: Params, F: seq<Fix>) returns (G: seq<Fix>)
    requires Sorted(F) && 0 < |F| && p.Ok() && !Firm(p, F)
    ensures Extends(F, G) && !SameBefore(p, F, G, FullResume(p, F).ts)
  {
    var s := Unfirm(p, F);
    var n, t := |F|, NextTs(F);
    forall m | m >= p.minVisit
      ensures Extends(F, MoreInside(F, n, t, m)) && Long(p, MoreInside(F, n, t, m), Load, NextLong(p, F, Load, s + 1))
    {
      UnfirmCloses(p, F, m, s);
    }
    hide *;
    assert BreaksOff(F, n, t) by {
      EndsNext(F);
    }
    var y := OpenDisagrees(p, F, n, t, s);
    G := MoreInside(F, n, t, p.minVisit);
    if SameBefore(p, F, G, FullResume(p, F).ts) {
      G := MoreInside(F, n, t, p.minVisit + 1);
      DiffersBefore(p, F, MoreInside(F, n, t, p.minVisit), G, FullResume(p, F).ts, y);
    }
  }

  lemma EndsNext(F: seq<Fix>)
    requires Sorted(F) && 0 < |F|
    ensures BreaksOff(F, |F|, NextTs(F))
  {
  }

  lemma {:induction false} UnfirmCloses(p: Params, F: seq<Fix>, m: int, s: nat)
    requires Sorted(F) && 0 < |F| && p.Ok() && m >= p.minVisit && s < |F| && Long(p, F, Load, s)
    requires !FirmBy(p, F, |F|, NextTs(F), s)
    ensures Extends(F, MoreInside(F, |F|, NextTs(F), m))
    ensures Long(p, MoreInside(F, |F|, NextTs(F), m), Load, NextLong(p, F, Load, s + 1))
  {
    hide StartAt, Long, OpenAt, NextLong, VisitEnd;
    EndsNext(F);
    MoreParts(F, |F|, NextTs(F), m);
    hide MoreInside;
    LongGrows(p, F, MoreInside(F, |F|, NextTs(F), m), Load, NextLong(p, F, Load, s + 1));
  }

  lemma DiffersBefore(p: Params, F: seq<Fix>, G: seq<Fix>, H: seq<Fix>, c: int, y: Cycle)
    requires SameBefore(p, F, G, c) && y.start < c && y in Table(p, G) && y !in Table(p, H)
    ensures !SameBefore(p, F, H, c)
  {
    hide Table;
  }

  lemma Unfirm(p: Params, F: seq<Fix>) returns (s: nat)
    requires 0 < |F| && !Firm(p, F)
    ensures s < |F| && F[s].ts < FullResume(p, F).ts && Long(p, F, Load, s) && !FirmBy(p, F, |F|, NextTs(F), s)
  {
    hide FirmBy, FullResume, Long;
    s :| s < |F| && F[s].ts < FullResume(p, F).ts && Long(p, F, Load, s) && !FirmBy(p, F, |F|, NextTs(F), s);
  }

  /** Restarting a firm track gives, whatever fixes follow, what a whole analysis would; and a
      track that is not firm has an extension for which it does not. */
  lemma {:induction false} ResumeExact(p: Params, F: seq<Fix>)
    requires Sorted(F) && 0 < |F| && p.Ok()
    ensures Firm(p, F) <==> forall G :: Extends(F, G) ==> ResumesTo(p, F, G)
  {
    hide Firm, ResumesTo, FullResume, MoreInside, Extends, SameBefore;
    if Firm(p, F) {
      forall G | Extends(F, G) ensures ResumesTo(p, F, G) {
        FirmSame(p, F, G);
        ResumeIffSame(p, F, G);
      }
    } else {
      var G := UnfirmDiffers(p, F);
      ResumeIffSame(p, F, G);
    }
  }

  /** The tracks have the same cycles among those that ended `minVisit + minExit` before `t`. */
  ghost predicate SettledAlike(p: Params, F: seq<Fix>, G: seq<Fix>, t: int) {
    forall y: Cycle :: y.end + p.minVisit + p.minExit <= t ==> (y in Table(p, F) <==> y in Table(p, G))
  }

  ghost predicate Departs(F: seq<Fix>, G: seq<Fix>, t: int) {
    Agree(F, G, t) && LastsTo(G, t)
  }

  /** The cycles of a track that ended `minVisit + minExit` before time `t` are told by its fixes
      before `t`, whichever fixes are late, if and only if it is calm there. */
  lemma {:induction false} LateExact(p: Params, F: seq<Fix>, t: int)
    requires Sorted(F) && p.Ok() && LastsTo(F, t)
    ensures CalmBy(p, F, t, p.minVisit + p.minExit) <==> forall G :: Departs(F, G, t) ==> SettledAlike(p, F, G, t)
  {
    hide Calm, SettledAlike, Table, FirstFrom;
    var n := FirstFrom(F, t);
    if CalmBy(p, F, t, p.minVisit + p.minExit) {
      forall G | Departs(F, G, t) ensures SettledAlike(p, F, G, t) {
        CalmAlike(p, F, G, t);
      }
    } else {
      var G := RestlessDiffers(p, F, t);
    }
  }

  lemma {:induction false} CalmAlike(p: Params, F: seq<Fix>, G: seq<Fix>, t: int)
    requires p.Ok() && Departs(F, G, t) && LastsTo(F, t) && CalmBy(p, F, t, p.minVisit + p.minExit)
    ensures SettledAlike(p, F, G, t)
  {
    hide Calm, Table, FirstFrom;
    AgreeIndex(F, G, t);
    forall y: Cycle | y.end + p.minVisit + p.minExit <= t ensures y in Table(p, F) <==> y in Table(p, G) {
      SettledSame(p, F, G, FirstFrom(F, t), t, y);
    }
  }

  lemma {:induction false} RestlessDiffers(p: Params, F: seq<Fix>, t: int) returns (G: seq<Fix>)
    requires Sorted(F) && p.Ok() && LastsTo(F, t) && !CalmBy(p, F, t, p.minVisit + p.minExit)
    ensures Departs(F, G, t) && !SettledAlike(p, F, G, t)
  {
    var n := FirstFrom(F, t);
    var s := Restless(p, F, n, t, p.minVisit + p.minExit);
    forall m | m >= p.minVisit
      ensures Departs(F, MoreInside(F, n, t, m), t)
      ensures Long(p, MoreInside(F, n, t, m), Load, NextLong(p, F, Load, s + 1))
    {
      RestlessCloses(p, F, n, t, m, s);
    }
    hide *;
    var y := OpenDisagrees(p, F, n, t, s);
    G := MoreInside(F, n, t, p.minVisit);
    if SettledAlike(p, F, G, t) {
      G := MoreInside(F, n, t, p.minVisit + 1);
      NotAlike(p, F, MoreInside(F, n, t, p.minVisit), G, t, y);
    }
  }

  lemma {:induction false} RestlessCloses(p: Params, F: seq<Fix>, n: nat, t: int, m: int, s: nat)
    requires BreaksOff(F, n, t) && n < |F| && p.Ok() && m >= p.minVisit && s < n && Long(p, F, Load, s)
    requires ClosesBy(p, F, n, t, p.minVisit + p.minExit, s)
    ensures Departs(F, MoreInside(F, n, t, m), t)
    ensures Long(p, MoreInside(F, n, t, m), Load, NextLong(p, F, Load, s + 1))
  {
    hide StartAt, Long, NextLong, VisitEnd;
    MoreDeparts(F, n, t, m);
    MoreParts(F, n, t, m);
    LongSettled(p, F, MoreInside(F, n, t, m), n, Load, NextLong(p, F, Load, s + 1));
  }

  lemma NotAlike(p: Params, F: seq<Fix>, G: seq<Fix>, H: seq<Fix>, t: int, y: Cycle)
    requires SettledAlike(p, F, G, t) && y.end + p.minVisit + p.minExit <= t && y in Table(p, G) && y !in Table(p, H)
    ensures !SettledAlike(p, F, H, t)
  {
    hide Table;
  }

  lemma Restless(p: Params, F: seq<Fix>, n: nat, t: int, h: int) returns (s: nat)
    requires n <= |F| && !Calm(p, F, n, t, h)
    ensures s < n && Long(p, F, Load, s) && ClosesBy(p, F, n, t, h, s) && !FirmBy(p, F, n, t, s)
  {
    hide FirmBy, Long, ClosesBy;
    s :| s < n && Long(p, F, Load, s) && ClosesBy(p, F, n, t, h, s) && !FirmBy(p, F, n, t, s);
  }

  lemma MoreDeparts(F: seq<Fix>, n: nat, t: int, m: int)
    requires BreaksOff(F, n, t) && m > 0
    ensures Departs(F, MoreInside(F, n, t, m), t)
  {
    var G := MoreInside(F, n, t, m);
    forall g: Fix | g.ts < t ensures g in F <==> g in G {
      if g in F {
        var i :| 0 <= i < |F| && F[i] == g;
        assert G[i] == g;
      }
    }
  }

  // ---- zones that overlap ---------------------------------------------------------------------

  function At(t: int, load: bool, dump: bool): Fix {
    Fix(t * 1_000_000, 0.0, 0.0, None, if load then Some(0) else None, if dump then Some(1) else None, {})
  }

  /** A truck loads, drives into the dump zone, and into where a load zone overlaps it. */
  function Overlap(): seq<Fix> {
    [At(0, true, false), At(20, false, false), At(40, false, true), At(60, true, true), At(80, true, true)]
  }

  lemma OverlapVisits(p: Params)
    requires p.minVisit == 15_000_000 && p.minExit == 15_000_000
    ensures var F := Overlap();
            && Sorted(F) && Long(p, F, Load, 0) && VisitEnd(p, F, Load, 0) == 1 && NextLong(p, F, Load, 1) == 3
            && OpenAt(p, F, Dump, 5, NextTs(F)) == 2 && StartAt(p, F, Load, 3) && Long(p, F, Load, 3)
            && (forall j :: 3 < j < 5 ==> !StartAt(p, F, Load, j)) && |F| == 5 && F[0].ts < F[3].ts
            && F[3].ts - F[0].ts == 60_000_000
            && NextLong(p, F, Dump, 1) >= 2
  {
    OverlapLoads(p);
    OverlapDumps(p);
    hide StartAt;
    var F := Overlap();
    NextStartIs(p, F, Load, 1, 3);
    NextStartIs(p, F, Load, 4, 5);
    assert F[0].In(Load) && !F[1].In(Load) && !F[2].In(Load) && F[4].In(Load);
    assert VisitEnd(p, F, Load, 0) == 1;
    assert VisitEnd(p, F, Load, 3) == 5;
    hide VisitEnd;
    NextLongIs(p, F, Load, 1, 3);
  }

  lemma OverlapLoads(p: Params)
    requires p.minExit == 15_000_000
    ensures var F := Overlap();
            && Sorted(F) && StartAt(p, F, Load, 0) && StartAt(p, F, Load, 3)
            && !StartAt(p, F, Load, 1) && !StartAt(p, F, Load, 2) && !StartAt(p, F, Load, 4)
  {
    var F := Overlap();
    assert F[0].In(Load) && !F[1].In(Load) && !F[2].In(Load) && F[3].In(Load) && F[4].In(Load);
  }

  lemma OverlapDumps(p: Params)
    requires p.minExit == 15_000_000
    ensures OpenAt(p, Overlap(), Dump, 5, NextTs(Overlap())) == 2
  {
    var F := Overlap();
    assert !F[0].In(Dump) && !F[1].In(Dump) && F[2].In(Dump) && F[3].In(Dump) && F[4].In(Dump);
    assert StartAt(p, F, Dump, 2) && !StartAt(p, F, Dump, 3) && !StartAt(p, F, Dump, 4);
  }

  lemma OverlapAnchor(p: Params)
    requires p.Ok() && p.minVisit == 15_000_000 && p.minExit == 15_000_000 && p.cap == Some(7_200_000_000)
    ensures Anchor(p, Overlap(), true, None) == 3
  {
    var F := Overlap();
    OverlapVisits(p);
    hide StartAt, VisitEnd, NextStart, NextLong, OpenAt;
    LastOpenerIsLong(p, F, 5);
    assert LastLong(p, F, Load, 5) == 3 by {
      assert forall j :: 3 < j < 5 ==> !Long(p, F, Load, j);
    }
    hide Long;
    assert F[4].ts - F[3].ts < p.cap.value;
  }

  /** With overlapping zones a track need not be firm, so its restart point can mislead. */
  lemma {:induction false} OverlapNotFirm(p: Params)
    requires p.Ok() && p.minVisit == 15_000_000 && p.minExit == 15_000_000 && p.cap == Some(7_200_000_000)
    ensures !Firm(p, Overlap())
    ensures exists G :: Extends(Overlap(), G) && !ResumesTo(p, Overlap(), G)
  {
    OverlapVisits(p);
    OverlapAnchor(p);
    hide *;
    Unfirm0(p, Overlap());
    ResumeExact(p, Overlap());
  }

  /** A cycle that takes the open dump visit, before the restart point. */
  lemma Unfirm0(p: Params, F: seq<Fix>)
    requires |F| == 5 && F[0].ts < F[3].ts && !p.TooLong(F[3].ts - F[0].ts) && Anchor(p, F, true, None) == 3
    requires Long(p, F, Load, 0) && VisitEnd(p, F, Load, 0) == 1 && NextLong(p, F, Load, 1) == 3
    requires OpenAt(p, F, Dump, 5, NextTs(F)) == 2
    requires NextLong(p, F, Dump, 1) >= 2
    ensures !Firm(p, F)
  {
    hide StartAt, VisitEnd, NextStart, Long, OpenAt, NextLong, Anchor;
    assert !FirmBy(p, F, 5, NextTs(F), 0);
  }
}

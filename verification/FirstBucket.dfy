/** When the bucket that a track begins in is final: whether anything that may follow the track can
    still change it. */
module FirstBucket {
  import opened Wrappers
  import opened Track
  import opened Cycles
  import opened Analysis
  import opened Locality
  import opened Restart
  import opened Finality
  import opened Metrics
  import opened Recompute
  import opened Buckets
  import opened Resumption

  function First(w: int, B: seq<Fix>): int
    requires 0 < |B| && w > 0
  {
    Floor(B[0].ts, w)
  }

  /** The newest fix lies in the first bucket, and so may the next; or the time to the next counts
      toward it. */
  predicate Reaching(w: int, B: seq<Fix>)
    requires 0 < |B| && w > 0
  {
    var last := B[|B|-1];
    Floor(last.ts, w) == First(w, B) && (Floor(NextTs(B), w) == First(w, B) || last.speed.Some? || last.zones != {})
  }

  /** The visit at `j` counts, or may once more fixes follow. */
  ghost predicate MayCount(p: Params, B: seq<Fix>, k: Kind, j: nat)
    requires 0 < |B|
  {
    Long(p, B, k, j) || j == OpenAt(p, B, k, |B|, NextTs(B))
  }

  /** The visits at `s` and `v` may open and close a cycle with the dump visit at `d`. */
  ghost predicate MayEnd(p: Params, B: seq<Fix>, s: nat, v: nat, d: nat)
    requires 0 < |B|
  {
    && s < v < |B| && Long(p, B, Load, s) && MayCount(p, B, Load, v) && NextLong(p, B, Load, s + 1) >= v
    && !p.TooLong(B[v].ts - B[s].ts) && VisitEnd(p, B, Load, s) <= d < v && MayCount(p, B, Dump, d)
  }

  /** So a cycle may still come to end in the first bucket. */
  ghost predicate Gaining(p: Params, w: int, B: seq<Fix>)
    requires 0 < |B| && w > 0
  {
    exists s: nat, v: nat, d: nat ::
      MayEnd(p, B, s, v, d) && Floor(B[v].ts, w) == First(w, B) && CycleAt(p, B, s) == None
  }

  ghost predicate Filling(p: Params, w: int, B: seq<Fix>)
    requires 0 < |B| && w > 0
  {
    Reaching(w, B) || Gaining(p, w, B)
  }

  // ---- the cycles that end in a bucket --------------------------------------------------------

  /** The visits, among those at the first `i` fixes, whose cycle ends in bucket `b`. */
  ghost function Closers(p: Params, w: int, F: seq<Fix>, b: int, i: nat): set<nat>
    requires i <= |F| && w > 0
  {
    set s: nat | s < i && CycleAt(p, F, s).Some? && Floor(CycleAt(p, F, s).value.end, w) == b
  }

  ghost function Opened(p: Params, F: seq<Fix>, i: nat): set<Cycle>
    requires i <= |F|
  {
    set s | 0 <= s < i && CycleAt(p, F, s).Some? :: CycleAt(p, F, s).value
  }

  /** As many cycles end in a bucket as visits open one that does. */
  lemma {:induction false} CountClosers(p: Params, w: int, F: seq<Fix>, b: int, i: nat)
    requires Sorted(F) && w > 0 && i <= |F|
    ensures |Ending(Opened(p, F, i), w, b)| == |Closers(p, w, F, b, i)|
    decreases i
  {
    hide *;
    if i > 0 {
      CountClosers(p, w, F, b, i - 1);
      CloserStep(p, w, F, b, i - 1);
      CycleStep(p, w, F, b, i - 1);
    } else {
      NoneYet(p, w, F, b);
    }
  }

  lemma NoneYet(p: Params, w: int, F: seq<Fix>, b: int)
    requires w > 0
    ensures Ending(Opened(p, F, 0), w, b) == {} && Closers(p, w, F, b, 0) == {}
  {
    hide CycleAt, Floor;
  }

  /** Whether the visit at fix `i` opens a cycle that ends in the bucket. */
  ghost predicate Ends(p: Params, w: int, F: seq<Fix>, b: int, i: nat)
    requires i < |F| && w > 0
  {
    CycleAt(p, F, i).Some? && Floor(CycleAt(p, F, i).value.end, w) == b
  }

  lemma CloserStep(p: Params, w: int, F: seq<Fix>, b: int, i: nat)
    requires i < |F| && w > 0
    ensures |Closers(p, w, F, b, i + 1)| == |Closers(p, w, F, b, i)| + if Ends(p, w, F, b, i) then 1 else 0
  {
    hide CycleAt, Floor;
    var C := Closers(p, w, F, b, i);
    assert i !in C;
    assert Closers(p, w, F, b, i + 1) == if Ends(p, w, F, b, i) then C + {i} else C;
  }

  lemma CycleStep(p: Params, w: int, F: seq<Fix>, b: int, i: nat)
    requires Sorted(F) && i < |F| && w > 0
    ensures |Ending(Opened(p, F, i + 1), w, b)|
            == |Ending(Opened(p, F, i), w, b)| + if Ends(p, w, F, b, i) then 1 else 0
  {
    hide *;
    OpenedStep(p, F, i);
    EndsIs(p, w, F, b, i);
    if CycleAt(p, F, i).Some? {
      NotOpened(p, F, i);
      OneMore(Opened(p, F, i), CycleAt(p, F, i).value, w, b);
    }
  }

  lemma EndsIs(p: Params, w: int, F: seq<Fix>, b: int, i: nat)
    requires i < |F| && w > 0
    ensures Ends(p, w, F, b, i) <==> CycleAt(p, F, i).Some? && Floor(CycleAt(p, F, i).value.end, w) == b
  {
    hide CycleAt, Floor;
  }

  lemma OpenedStep(p: Params, F: seq<Fix>, i: nat)
    requires i < |F|
    ensures Opened(p, F, i + 1) ==
      if CycleAt(p, F, i).Some? then Opened(p, F, i) + {CycleAt(p, F, i).value} else Opened(p, F, i)
  {
    hide CycleAt;
  }

  lemma NotOpened(p: Params, F: seq<Fix>, i: nat)
    requires Sorted(F) && i < |F| && CycleAt(p, F, i).Some?
    ensures CycleAt(p, F, i).value !in Opened(p, F, i)
  {
    hide CycleAt;
    CycleStart(p, F, i);
    forall s: nat | s < i && CycleAt(p, F, s).Some? ensures CycleAt(p, F, s) != CycleAt(p, F, i) {
      CycleStart(p, F, s);
    }
  }

  lemma TableOpened(p: Params, F: seq<Fix>)
    ensures Opened(p, F, |F|) == Table(p, F)
  {
    hide CycleAt;
  }

  // ---- a cycle once there stays ---------------------------------------------------------------

  /** A visit with a cycle has one, ending at the same time, whatever follows. */
  lemma {:induction false} CloserStays(p: Params, B: seq<Fix>, G: seq<Fix>, s: nat)
    requires Sorted(B) && 0 < |B| && Extends(B, G) && s < |B| && CycleAt(p, B, s).Some?
    ensures s < |G| && CycleAt(p, G, s).Some? && CycleAt(p, G, s).value.end == CycleAt(p, B, s).value.end
  {
    ClosedBy(p, B, s);
    var v := NextLong(p, B, Load, s + 1);
    LongGrows(p, B, G, Load, v);
    SameCloser(p, B, G, |B|, s, v);
    ShareAt(B, G, |B|, s);
    ShareAt(B, G, |B|, v);
    var e := VisitEnd(p, B, Load, s);
    var d := NextLong(p, B, Dump, e);
    hide StartAt, VisitEnd, NextStart, CycleFrom, CycleAt, Extends, Share;
    CycleAtIs(p, B, s, e, d, v);
    LongGrows(p, B, G, Dump, d);
    TakesOne(p, G, s, e, d, v);
    TakesOne(p, B, s, e, d, v);
  }

  lemma {:induction false} TakesOne(p: Params, G: seq<Fix>, s: nat, e: nat, d: nat, v: nat)
    requires Sorted(G) && Closes(p, G, s, e, v) && s < e <= d < v && Long(p, G, Dump, d)
    ensures CycleAt(p, G, s).Some? && CycleAt(p, G, s).value.end == G[v].ts
  {
    hide StartAt, Long, NextStart, CycleFrom, CycleAt;
    var c := NextLong(p, G, Dump, e);
    assert c <= d;
    CycleAtIs(p, G, s, e, c, v);
    CycleEnds(p, G, s, e, c, VisitEnd(p, G, Dump, c), v);
  }

  lemma CycleEnds(p: Params, G: seq<Fix>, s: nat, e: nat, d: nat, de: nat, v: nat)
    requires s < e <= d < de <= |G| && d < v < |G|
    ensures CycleFrom(p, G, s, e, d, de, v).end == G[v].ts
  {
    hide Queue, CreditedZone;
  }

  // ---- a cycle that may still come ------------------------------------------------------------

  /** It does when two more fixes follow where a load zone overlaps a dump zone. */
  lemma {:induction false} MayEndDoes(p: Params, B: seq<Fix>, s: nat, v: nat, d: nat)
    requires Sorted(B) && 0 < |B| && p.Ok() && MayEnd(p, B, s, v, d)
    ensures var G := MoreInside(B, |B|, NextTs(B), p.minVisit);
            s < |G| && CycleAt(p, G, s).Some? && CycleAt(p, G, s).value.end == B[v].ts
  {
    var n, t := |B|, NextTs(B);
    var G, e := MoreInside(B, n, t, p.minVisit), VisitEnd(p, B, Load, s);
    EndsNext(B);
    MoreExtends(p, B);
    hide MoreInside;
    CountsThen(p, B, Load, v);
    CountsThen(p, B, Dump, d);
    ThenCloses(p, B, G, s, v);
    ShareAt(B, G, n, v);
    TakesOne(p, G, s, e, d, v);
  }

  lemma MoreExtends(p: Params, B: seq<Fix>)
    requires Sorted(B) && 0 < |B| && p.Ok()
    ensures Extends(B, MoreInside(B, |B|, NextTs(B), p.minVisit))
  {
    EndsNext(B);
    MoreParts(B, |B|, NextTs(B), p.minVisit);
    hide MoreInside;
  }

  lemma CountsThen(p: Params, B: seq<Fix>, k: Kind, j: nat)
    requires Sorted(B) && 0 < |B| && p.Ok() && MayCount(p, B, k, j)
    ensures Long(p, MoreInside(B, |B|, NextTs(B), p.minVisit), k, j)
  {
    hide StartAt, OpenAt, VisitEnd, MoreInside;
    EndsNext(B);
    MoreExtends(p, B);
    if Long(p, B, k, j) {
      LongGrows(p, B, MoreInside(B, |B|, NextTs(B), p.minVisit), k, j);
    } else {
      OpenLengthens(p, B, |B|, NextTs(B), p.minVisit, k);
    }
  }

  /** A visit that may count closes, once it does, the cycle of the last that counted before it. */
  lemma {:induction false} ThenCloses(p: Params, B: seq<Fix>, G: seq<Fix>, s: nat, v: nat)
    requires Sorted(B) && 0 < |B| && Extends(B, G) && s < v < |B| && Long(p, B, Load, s) && Long(p, G, Load, v)
    requires NextLong(p, B, Load, s + 1) >= v && !p.TooLong(B[v].ts - B[s].ts)
    ensures s < VisitEnd(p, B, Load, s) && Closes(p, G, s, VisitEnd(p, B, Load, s), v)
  {
    ShareStart(p, B, G, |B|, Load, v);
    ShareVisit(p, B, G, |B|, Load, s, v);
    ShareAt(B, G, |B|, s);
    ShareAt(B, G, |B|, v);
    forall j | s < j < v ensures !Long(p, G, Load, j) {
      SameLongAt(p, B, G, |B|, Load, j, v);
    }
    hide StartAt, VisitEnd, Long, Share;
    NextLongIs(p, G, Load, s + 1, v);
  }

  /** A cycle that a longer track has and this one has not is one that may still come. */
  lemma {:induction false} CameLater(p: Params, B: seq<Fix>, G: seq<Fix>, s: nat, v: nat)
    requires Sorted(B) && 0 < |B| && Extends(B, G) && s < v < |B| && v == NextLong(p, G, Load, s + 1)
    requires CycleAt(p, G, s).Some? && (CycleAt(p, B, s).Some? ==> CycleAt(p, B, s).value.end != G[v].ts)
    ensures CycleAt(p, B, s) == None && exists d :: MayEnd(p, B, s, v, d)
  {
    ClosedBy(p, G, s);
    LongStarts(p, G, Load, v);
    ShareStart(p, B, G, |B|, Load, v);
    ShareAt(B, G, |B|, s);
    ShareAt(B, G, |B|, v);
    ShareStart(p, B, G, |B|, Load, s);
    LongStarts(p, G, Load, s);
    ShareVisit(p, B, G, |B|, Load, s, v);
    WasOpen(p, B, G, Load, v);
    var e := VisitEnd(p, G, Load, s);
    var d := NextLong(p, G, Dump, e);
    NextLongAfterEnd(p, G, s);
    hide StartAt, VisitEnd, NextStart, CycleFrom, CycleAt, OpenAt;
    CycleAtIs(p, G, s, e, d, v);
    WasOpen(p, B, G, Dump, d);
    NoneSooner(p, B, G, s, v);
    if CycleAt(p, B, s).Some? {
      StaysThere(p, B, G, s, v);
    }
    assert MayEnd(p, B, s, v, d);
  }

  /** A visit that counts in a longer track counts, or may. */
  lemma {:induction false} WasOpen(p: Params, B: seq<Fix>, G: seq<Fix>, k: Kind, j: nat)
    requires Sorted(B) && 0 < |B| && Extends(B, G) && j < |B| && Long(p, G, k, j)
    ensures MayCount(p, B, k, j)
  {
    ShareStart(p, B, G, |B|, k, j);
    LongStarts(p, G, k, j);
    hide StartAt, VisitEnd, OpenAt, Extends;
    if j != OpenAt(p, B, k, |B|, NextTs(B)) {
      ExtendsParts(B, G);
      VisitSettled(p, B, G, |B|, NextTs(B), k, j);
    }
  }

  lemma {:induction false} NoneSooner(p: Params, B: seq<Fix>, G: seq<Fix>, s: nat, v: nat)
    requires Sorted(B) && Extends(B, G) && s < v < |B| && v == NextLong(p, G, Load, s + 1)
    ensures NextLong(p, B, Load, s + 1) >= v
  {
    forall j | s < j < v ensures !Long(p, B, Load, j) {
      if Long(p, B, Load, j) {
        LongGrows(p, B, G, Load, j);
      }
    }
    hide Long;
    NextLongAtLeast(p, B, Load, s + 1, v);
  }

  /** Had there been one, it would end there. */
  lemma {:induction false} StaysThere(p: Params, B: seq<Fix>, G: seq<Fix>, s: nat, v: nat)
    requires Sorted(B) && 0 < |B| && Extends(B, G) && s < v < |B| && v == NextLong(p, G, Load, s + 1)
    requires CycleAt(p, B, s).Some? && CycleAt(p, G, s).Some?
    ensures CycleAt(p, B, s).value.end == G[v].ts
  {
    CloserStays(p, B, G, s);
    ClosedBy(p, G, s);
  }

  // ---- the loads of the first bucket ----------------------------------------------------------

  /** When the next fix will not fall into the bucket, a visit in a longer track that opens a cycle
      ending there is one of this track, and so is the visit that closes it. */
  lemma {:induction false} EndsInside(p: Params, w: int, B: seq<Fix>, G: seq<Fix>, s: nat)
    requires Sorted(B) && 0 < |B| && Extends(B, G) && w > 0 && s < |G| && CycleAt(p, G, s).Some?
    requires Floor(CycleAt(p, G, s).value.end, w) == First(w, B) && First(w, B) < Floor(NextTs(B), w)
    ensures var v := NextLong(p, G, Load, s + 1);
            s < v < |B| && B[v] == G[v] && Floor(B[v].ts, w) == First(w, B) && CycleAt(p, G, s).value.end == G[v].ts
  {
    hide *;
    ClosedBy(p, G, s);
    LaterFix(w, B, G, NextLong(p, G, Load, s + 1));
  }

  lemma LaterFix(w: int, B: seq<Fix>, G: seq<Fix>, v: nat)
    requires Sorted(B) && 0 < |B| && Extends(B, G) && w > 0 && v < |G|
    ensures if v < |B| then B[v] == G[v] else Floor(NextTs(B), w) <= Floor(G[v].ts, w)
  {
    if v >= |B| {
      ShareAt(B, G, |B|, |B| - 1);
      FloorMono(NextTs(B), G[v].ts, w);
    } else {
      ShareAt(B, G, |B|, v);
    }
  }

  /** When none may still come, the same visits open the cycles that end there. */
  lemma {:induction false} SameClosers(p: Params, w: int, B: seq<Fix>, G: seq<Fix>)
    requires Sorted(B) && 0 < |B| && Extends(B, G) && w > 0 && !Gaining(p, w, B)
    requires First(w, B) < Floor(NextTs(B), w)
    ensures Closers(p, w, B, First(w, B), |B|) == Closers(p, w, G, First(w, B), |G|)
  {
    var b := First(w, B);
    hide CycleAt, Floor, First, Extends, Sorted, MayEnd;
    forall s: nat | s in Closers(p, w, B, b, |B|) ensures s in Closers(p, w, G, b, |G|) {
      CloserStays(p, B, G, s);
    }
    forall s: nat | s in Closers(p, w, G, b, |G|) ensures s in Closers(p, w, B, b, |B|) {
      EndsInside(p, w, B, G, s);
      if !(CycleAt(p, B, s).Some? && CycleAt(p, B, s).value.end == G[NextLong(p, G, Load, s + 1)].ts) {
        CameLater(p, B, G, s, NextLong(p, G, Load, s + 1));
        assert false;
      }
    }
  }

  lemma {:induction false} LoadsStay(p: Params, w: int, B: seq<Fix>, G: seq<Fix>)
    requires Sorted(B) && 0 < |B| && Extends(B, G) && w > 0 && !Gaining(p, w, B)
    requires First(w, B) < Floor(NextTs(B), w)
    ensures |Ending(Table(p, B), w, First(w, B))| == |Ending(Table(p, G), w, First(w, B))|
  {
    var b := First(w, B);
    assert Sorted(G);
    hide *;
    SameClosers(p, w, B, G);
    CountClosers(p, w, B, b, |B|);
    CountClosers(p, w, G, b, |G|);
    TableOpened(p, B);
    TableOpened(p, G);
  }

  /** When one may, the two fixes bring one more. */
  lemma {:induction false} LoadsGrow(p: Params, w: int, B: seq<Fix>)
    requires Sorted(B) && 0 < |B| && p.Ok() && w > 0 && Gaining(p, w, B)
    ensures var G := MoreInside(B, |B|, NextTs(B), p.minVisit);
            |Ending(Table(p, B), w, First(w, B))| < |Ending(Table(p, G), w, First(w, B))|
  {
    var s: nat, v: nat, d: nat :|
      MayEnd(p, B, s, v, d) && Floor(B[v].ts, w) == First(w, B) && CycleAt(p, B, s) == None;
    var b, G := First(w, B), MoreInside(B, |B|, NextTs(B), p.minVisit);
    MoreExtends(p, B);
    assert Sorted(G) && s < |B| && |B| <= |G|;
    hide *;
    MayEndDoes(p, B, s, v, d);
    MoreClosers(p, w, B, G, b, s);
    CountClosers(p, w, B, b, |B|);
    CountClosers(p, w, G, b, |G|);
    TableOpened(p, B);
    TableOpened(p, G);
  }

  lemma {:induction false} MoreClosers(p: Params, w: int, B: seq<Fix>, G: seq<Fix>, b: int, s: nat)
    requires Sorted(B) && 0 < |B| && Extends(B, G) && w > 0 && s < |B| <= |G| && CycleAt(p, B, s) == None
    requires CycleAt(p, G, s).Some? && Floor(CycleAt(p, G, s).value.end, w) == b
    ensures |Closers(p, w, B, b, |B|)| < |Closers(p, w, G, b, |G|)|
  {
    hide CycleAt, Floor, Extends, Sorted;
    var S, T := Closers(p, w, B, b, |B|), Closers(p, w, G, b, |G|);
    forall i: nat | i in S ensures i in T {
      CloserStays(p, B, G, i);
    }
    assert s in T && s !in S;
    Fewer(S, T, s);
  }

  lemma Fewer(S: set<nat>, T: set<nat>, x: nat)
    requires S <= T && x in T && x !in S
    ensures |S| < |T|
  {
    assert S <= T - {x};
    Fits(S, T - {x});
  }

  lemma {:induction false} Fits(S: set<nat>, T: set<nat>)
    requires S <= T
    ensures |S| <= |T|
  {
    if S != {} {
      var x :| x in S;
      Fits(S - {x}, T - {x});
    }
  }

  // ---- the rest of it -------------------------------------------------------------------------

  /** What the fixes before the newest put into the bucket is settled. */
  lemma {:induction false} BeforeNewest(p: Params, w: int, B: seq<Fix>, G: seq<Fix>, b: int)
    requires Sorted(B) && 0 < |B| && Extends(B, G) && w > 0
    ensures Content(p, w, B, b, |B| - 1) == Content(p, w, G, b, |B| - 1)
    ensures B[|B|-1] == G[|B|-1]
  {
    ShareAt(B, G, |B|, |B| - 1);
    BeforeLast(p, w, B, G, b, |B| - 1);
  }

  lemma {:induction false} BeforeLast(p: Params, w: int, B: seq<Fix>, G: seq<Fix>, b: int, i: nat)
    requires w > 0 && Share(B, G, |B|) && i < |B|
    ensures Content(p, w, B, b, i) == Content(p, w, G, b, i)
    decreases i
  {
    if i > 0 {
      ShareAt(B, G, |B|, i - 1);
      ShareAt(B, G, |B|, i);
      BeforeLast(p, w, B, G, b, i - 1);
    }
  }

  /** So is what the newest puts there, unless the time to the next counts toward it. */
  lemma {:induction false} ContentStays(p: Params, w: int, B: seq<Fix>, G: seq<Fix>)
    requires Sorted(B) && 0 < |B| && Extends(B, G) && w > 0 && !Reaching(w, B)
    ensures First(w, B) < Floor(NextTs(B), w)
    ensures Content(p, w, B, First(w, B), |B|) == Content(p, w, G, First(w, B), |G|)
  {
    var b := First(w, B);
    BeforeNewest(p, w, B, G, b);
    LaterBuckets(w, B);
    hide Floor;
    if Floor(B[|B|-1].ts, w) == b && |B| < |G| {
      NothingCounts(p, w, AddSpeed(Content(p, w, B, b, |B| - 1), B[|B|-1]), B[|B|-1], G[|B|]);
    }
    assert Content(p, w, B, b, |B|) == Content(p, w, G, b, |B|);
    NoMore(p, w, B, G, b, |G|);
  }

  lemma LaterBuckets(w: int, B: seq<Fix>)
    requires Sorted(B) && 0 < |B| && w > 0 && !Reaching(w, B)
    ensures First(w, B) < Floor(NextTs(B), w)
  {
    FloorMono(B[0].ts, B[|B|-1].ts, w);
    FloorMono(B[|B|-1].ts, NextTs(B), w);
  }

  lemma NothingCounts(p: Params, w: int, c: Bucket, f: Fix, next: Fix)
    requires f.speed.None? && f.zones == {}
    ensures AddInterval(p, w, c, f, next) == c
  {
    assert AddDwell(c.dwell, {}, next.ts - f.ts) == c.dwell;
  }

  lemma {:induction false} NoMore(p: Params, w: int, B: seq<Fix>, G: seq<Fix>, b: int, i: nat)
    requires Sorted(B) && 0 < |B| && Extends(B, G) && w > 0 && |B| <= i <= |G| && b < Floor(NextTs(B), w)
    ensures Content(p, w, G, b, i) == Content(p, w, G, b, |B|)
    decreases i
  {
    hide Floor, AddFix;
    if i > |B| {
      ShareAt(B, G, |B|, |B| - 1);
      assert G[i-1].ts >= NextTs(B);
      FloorMono(NextTs(B), G[i-1].ts, w);
      NoMore(p, w, B, G, b, i - 1);
    }
  }

  /** Fixes with a speed are counted. */
  lemma {:induction false} SpeedsRise(p: Params, w: int, G: seq<Fix>, b: int, i: nat, j: nat)
    requires w > 0 && i <= j <= |G|
    ensures Content(p, w, G, b, i).speedN <= Content(p, w, G, b, j).speedN
    decreases j
  {
    if i < j {
      SpeedsRise(p, w, G, b, i, j - 1);
    }
  }

  /** A next fix in the bucket, with a speed, counts there. */
  lemma {:induction false} NextCounts(p: Params, w: int, B: seq<Fix>, G: seq<Fix>, b: int)
    requires Sorted(B) && 0 < |B| && Extends(B, G) && w > 0 && |B| < |G| && G[|B|].speed.Some?
    requires Floor(G[|B|].ts, w) == b
    ensures Content(p, w, B, b, |B|).speedN < Content(p, w, G, b, |G|).speedN
  {
    var n := |B|;
    BeforeNewest(p, w, B, G, b);
    hide Floor;
    assert Content(p, w, B, b, n).speedN == Content(p, w, G, b, n).speedN;
    assert Content(p, w, G, b, n + 1).speedN == Content(p, w, G, b, n).speedN + 1;
    SpeedsRise(p, w, G, b, n + 1, |G|);
  }

  /** The time to a next fix one moment later counts when the newest fix has a speed or a zone. */
  lemma {:induction false} TimeCounts(p: Params, w: int, B: seq<Fix>, G: seq<Fix>, b: int)
    requires Sorted(B) && 0 < |B| && Extends(B, G) && w > 0 && |B| < |G| && G[|B|].ts == NextTs(B)
    requires Floor(B[|B|-1].ts, w) == b < Floor(NextTs(B), w)
    requires B[|B|-1].speed.Some? || B[|B|-1].zones != {}
    ensures var c, d := Content(p, w, B, b, |B|), Content(p, w, G, b, |G|); c.(loads := 0) != d.(loads := 0)
  {
    var n := |B|;
    BeforeNewest(p, w, B, G, b);
    var c := AddSpeed(Content(p, w, B, b, n - 1), B[n-1]);
    NoMore(p, w, B, G, b, |G|);
    hide Floor;
    assert Content(p, w, B, b, n) == c;
    assert Content(p, w, G, b, n) == AddInterval(p, w, c, B[n-1], G[n]);
    IntervalCounts(p, w, c, B[n-1], G[n]);
  }

  lemma IntervalCounts(p: Params, w: int, c: Bucket, f: Fix, next: Fix)
    requires w > 0 && next.ts == f.ts + 1 && (f.speed.Some? || f.zones != {})
    ensures c.(loads := 0) != AddInterval(p, w, c, f, next).(loads := 0)
  {
    if f.speed.None? {
      var z :| z in f.zones;
      var d := AddDwell(c.dwell, f.zones, 1);
      assert z in d && (z in c.dwell ==> d[z] == c.dwell[z] + 1);
    }
  }

  // ---- exactly --------------------------------------------------------------------------------

  lemma FirstPresent(w: int, B: seq<Fix>)
    requires 0 < |B| && w > 0
    ensures First(w, B) in Starts(B, w)
  {
    hide Floor;
  }

  lemma FirstShared(w: int, B: seq<Fix>, G: seq<Fix>)
    requires 0 < |B| && w > 0 && Extends(B, G)
    ensures 0 < |G| && G[0] == B[0] && First(w, G) == First(w, B)
  {
    hide Floor;
    ShareAt(B, G, |B|, 0);
  }

  /** The first bucket as a rebuild of the whole track stores it. */
  lemma FirstRow(p: Params, w: int, G: seq<Fix>, b: int)
    requires w > 0 && b in Starts(G, w)
    ensures b in FullMetrics(p, w, G)
    ensures FullMetrics(p, w, G)[b] == Content(p, w, G, b, |G|).(loads := |Ending(Table(p, G), w, b)|)
  {
    hide Content, Floor, Table, Ending;
  }

  lemma {:induction false} SettledFirst(p: Params, w: int, B: seq<Fix>, G: seq<Fix>)
    requires Sorted(B) && 0 < |B| && Extends(B, G) && w > 0 && !Filling(p, w, B)
    ensures SameBucket(p, w, B, G, First(w, B))
  {
    ContentStays(p, w, B, G);
    LoadsStay(p, w, B, G);
    FirstPresent(w, B);
    FirstShared(w, B, G);
    FirstPresent(w, G);
    FirstRow(p, w, B, First(w, B));
    FirstRow(p, w, G, First(w, B));
    hide FullMetrics, Content, Table, Ending, Floor, Starts;
  }

  /** Two fixes that change the first bucket when it is not. */
  lemma {:induction false} UnsettledFirst(p: Params, w: int, B: seq<Fix>)
    requires Sorted(B) && 0 < |B| && p.Ok() && w > 0 && Filling(p, w, B)
    ensures var G := MoreInside(B, |B|, NextTs(B), p.minVisit);
            Extends(B, G) && !SameBucket(p, w, B, G, First(w, B))
  {
    var b, G := First(w, B), MoreInside(B, |B|, NextTs(B), p.minVisit);
    MoreExtends(p, B);
    FirstPresent(w, B);
    FirstShared(w, B, G);
    FirstPresent(w, G);
    FirstRow(p, w, B, b);
    FirstRow(p, w, G, b);
    assert |B| < |G| && G[|B|].speed.Some? && G[|B|].ts == NextTs(B);
    hide FullMetrics, Content, Table, Ending, Floor, Starts, MoreInside, Extends;
    if Gaining(p, w, B) {
      LoadsGrow(p, w, B);
    } else if Floor(NextTs(B), w) == b {
      NextCounts(p, w, B, G, b);
    } else {
      FloorMono(B[|B|-1].ts, NextTs(B), w);
      TimeCounts(p, w, B, G, b);
    }
  }

  /** The bucket that a track begins in is the same in every extension of the track, if and only if
      the newest fix has left it and no cycle may still come to end there. */
  lemma {:induction false} FirstBucketExact(p: Params, w: int, B: seq<Fix>)
    requires Sorted(B) && 0 < |B| && p.Ok() && w > 0
    ensures !Filling(p, w, B) <==> forall G :: Extends(B, G) ==> SameBucket(p, w, B, G, First(w, B))
  {
    hide *;
    if Filling(p, w, B) {
      UnsettledFirst(p, w, B);
    } else {
      forall G | Extends(B, G) ensures SameBucket(p, w, B, G, First(w, B)) {
        SettledFirst(p, w, B, G);
      }
    }
  }
}

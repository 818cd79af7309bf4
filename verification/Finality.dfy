/** When the cycles before a track's restart point are final.

    A track is firm when no dump visit that the next fixes could still lengthen is the one some
    closed cycle takes as its own.  Whatever follows a firm track, the cycles before its restart
    point stay as they are. */
module Finality {
  import opened Wrappers
  import opened Track
  import opened Cycles
  import opened Analysis
  import opened Locality
  import opened Restart

  /** The earliest time of a fix that follows the track. */
  function NextTs(F: seq<Fix>): int
    requires 0 < |F|
  {
    F[|F|-1].ts + 1
  }

  /** No closed cycle before the restart point takes a dump visit the next fix may lengthen. */
  ghost predicate Firm(p: Params, F: seq<Fix>)
    requires 0 < |F|
  {
    forall s: nat :: s < |F| && F[s].ts < FullResume(p, F).ts && Long(p, F, Load, s) ==>
      FirmBy(p, F, |F|, NextTs(F), s)
  }

  ghost predicate Extends(F: seq<Fix>, G: seq<Fix>) {
    Sorted(G) && Share(F, G, |F|)
  }

  // ---- a firm track ---------------------------------------------------------------------------

  lemma ExtendsParts(F: seq<Fix>, G: seq<Fix>)
    requires Sorted(F) && 0 < |F| && Extends(F, G)
    ensures Parts(F, G, |F|, NextTs(F))
  {
    ShareAt(F, G, |F|, |F| - 1);
  }

  /** A closed, firm cycle is the same in every longer track. */
  lemma {:induction false} FirmStays(p: Params, F: seq<Fix>, G: seq<Fix>, s: nat, v: nat)
    requires Sorted(F) && Extends(F, G) && s < v < |F|
    requires Long(p, F, Load, s) && NextLong(p, F, Load, s + 1) == v && FirmBy(p, F, |F|, NextTs(F), s)
    ensures CycleAt(p, F, s) == CycleAt(p, G, s)
  {
    hide FirmBy, NextLong, CycleAt;
    LongGrows(p, F, G, Load, v);
    ExtendsParts(F, G);
    FirmClosed(p, F, G, |F|, NextTs(F), s, v);
  }

  /** In a firm track every cycle before the restart point is final. */
  lemma {:induction false} FirmCycle(p: Params, F: seq<Fix>, G: seq<Fix>, s: nat)
    requires Sorted(F) && Extends(F, G) && p.Ok() && s < |F| && F[s].ts < FullResume(p, F).ts && Firm(p, F)
    ensures CycleAt(p, F, s) == CycleAt(p, G, s)
  {
    hide CycleAt, FirmBy, VisitEnd, StartAt;
    var a := Anchor(p, F, true, None);
    if a >= 0 {
      AnchorPivot(p, F, G, a);
      FirmBefore(p, F, G, a, s);
    } else {
      FirmDone(p, F, G, s);
    }
  }

  lemma {:induction false} FirmBefore(p: Params, F: seq<Fix>, G: seq<Fix>, a: nat, s: nat)
    requires Sorted(F) && Extends(F, G) && Pivot(p, F, G, |F|, a) && s < a < |F|
    requires Long(p, F, Load, s) ==> FirmBy(p, F, |F|, NextTs(F), s)
    ensures CycleAt(p, F, s) == CycleAt(p, G, s)
  {
    hide CycleAt, FirmBy, VisitEnd;
    ShareStart(p, F, G, |F|, Load, s);
    if StartAt(p, F, Load, s) {
      ShareVisit(p, F, G, |F|, Load, s, a);
      if Long(p, F, Load, s) {
        var u := NextLong(p, F, Load, s + 1);
        if u < a || Long(p, F, Load, a) {
          FirmStays(p, F, G, s, u);
        } else {
          PivotDead(p, F, G, |F|, a, s);
        }
      }
    }
    if !Long(p, F, Load, s) {
      NotLongNoCycle(p, F, s);
      NotLongNoCycle(p, G, s);
    }
  }

  lemma {:induction false} FirmDone(p: Params, F: seq<Fix>, G: seq<Fix>, s: nat)
    requires Sorted(F) && Extends(F, G) && Anchor(p, F, true, None) < 0 && s < |F|
    requires Long(p, F, Load, s) ==> FirmBy(p, F, |F|, NextTs(F), s)
    ensures CycleAt(p, F, s) == CycleAt(p, G, s)
  {
    hide CycleAt, FirmBy, VisitEnd, StartAt;
    if !Long(p, F, Load, s) {
      if Long(p, G, Load, s) {
        NoPendingLong(p, F, G, s);
      }
      NotLongNoCycle(p, F, s);
      NotLongNoCycle(p, G, s);
    } else {
      LongGrows(p, F, G, Load, s);
      var u := NextLong(p, F, Load, s + 1);
      if u < |F| {
        FirmStays(p, F, G, s, u);
      } else {
        LastOpenerIsLong(p, F, |F|);
        DeadOpener(p, F, G, s);
      }
    }
  }

  lemma {:induction false} FirmSame(p: Params, F: seq<Fix>, G: seq<Fix>)
    requires Sorted(F) && 0 < |F| && Extends(F, G) && p.Ok() && Firm(p, F)
    ensures SameBefore(p, F, G, FullResume(p, F).ts)
  {
    hide CycleAt, Anchor, Firm;
    var a := Anchor(p, F, true, None);
    var v := if a >= 0 then a else |F| - 1;
    ShareAt(F, G, |F|, v);
    forall s: nat | s < v
      ensures CycleAt(p, F, s) == CycleAt(p, G, s)
    {
      FirmCycle(p, F, G, s);
    }
    SameByIndex(p, F, G, v);
  }

  /** A track calm at its end is firm. */
  lemma {:induction false} CalmIsFirm(p: Params, F: seq<Fix>)
    requires Sorted(F) && 0 < |F| && Calm(p, F, |F|, NextTs(F), p.minVisit)
    ensures Firm(p, F)
  {
    hide FullResume, FirmBy, Long, ClosesBy;
    forall s: nat | s < |F| && Long(p, F, Load, s) ensures FirmBy(p, F, |F|, NextTs(F), s) {
      ClosedInside(p, F, s);
    }
  }

  /** A visit that counts is `minVisit` old by the last fix. */
  lemma ClosedInside(p: Params, F: seq<Fix>, s: nat)
    requires Sorted(F) && s < |F| && Long(p, F, Load, s)
    ensures ClosesBy(p, F, |F|, NextTs(F), p.minVisit, s) || FirmBy(p, F, |F|, NextTs(F), s)
  {
    hide OpenAt, NextLong;
    var v := NextLong(p, F, Load, s + 1);
    if v < |F| {
      ExitByLast(p, F, Load, v);
    }
  }

  // ---- cycles that are settled ----------------------------------------------------------------

  /** Every completed cycle opened before the restart point. */
  lemma {:induction false} CompletedBefore(p: Params, F: seq<Fix>, s: nat, v: nat)
    requires Sorted(F) && s < v < |F| && Long(p, F, Load, v)
    ensures F[s].ts < FullResume(p, F).ts
  {
    LastOpenerIsLong(p, F, |F|);
    LongStarts(p, F, Load, v);
    LastIsLater(p, F, v);
    PendingIsLast(p, F);
    hide StartAt, Long, MayStillClose, LastLong, LastStart, Pending, LastOpener;
    assert Pending(p, F) >= 0 ==> Pending(p, F) >= v;
  }

  lemma LastIsLater(p: Params, F: seq<Fix>, v: nat)
    requires v < |F| && Long(p, F, Load, v) && StartAt(p, F, Load, v)
    ensures LastLong(p, F, Load, |F|) >= v && LastStart(p, F, Load, |F|) >= v
  {
    hide Long, StartAt;
  }

  /** A cycle of a longer track that ended long enough before the shorter one's last fix was opened
      and closed by visits that counted there. */
  lemma {:induction false} SettledEarlier(p: Params, F: seq<Fix>, G: seq<Fix>, s: nat)
    requires Sorted(F) && 0 < |F| && Extends(F, G) && p.Ok() && s < |G| && CycleAt(p, G, s).Some?
    requires CycleAt(p, G, s).value.end + p.minVisit + p.minExit <= F[|F|-1].ts
    ensures var v := NextLong(p, G, Load, s + 1); s < v < |F| && Long(p, F, Load, v)
  {
    ClosedBy(p, G, s);
    assert p.minVisit + p.minExit > 0;
    hide *;
    var v := NextLong(p, G, Load, s + 1);
    InExtension(F, G);
    BeforeLast(F, G, v, p.minVisit + p.minExit);
    SettledLong(p, F, G, v);
  }

  lemma BeforeLast(F: seq<Fix>, G: seq<Fix>, v: nat, d: int)
    requires Sorted(F) && 0 < |F| && Extends(F, G) && v < |G| && G[v].ts + d <= F[|F|-1].ts && d > 0
    ensures v < |F| - 1 && G[v] == F[v]
  {
    ShareAt(F, G, |F|, |F| - 1);
    assert v < |F| - 1;
    ShareAt(F, G, |F|, v);
  }

  lemma {:induction false} SettledLong(p: Params, F: seq<Fix>, G: seq<Fix>, v: nat)
    requires Sorted(F) && 0 < |F| && Extends(F, G) && p.Ok() && v < |F| - 1 && |F| <= |G| && Long(p, G, Load, v)
    requires G[v].ts + p.minVisit + p.minExit <= F[|F|-1].ts
    ensures Long(p, F, Load, v)
  {
    var n := |F| - 1;
    hide StartAt, Long;
    ShareAt(F, G, |F|, n);
    ShareLess(F, G, |F|, n);
    ShareSym(F, G, n);
    LongSettled(p, G, F, n, Load, v);
  }

  /** Tracks extending a firm one have its cycles that ended long enough before its last fix, and
      no others there. */
  lemma {:induction false} FirmSettled(p: Params, F: seq<Fix>, G: seq<Fix>, y: Cycle)
    requires Sorted(F) && 0 < |F| && Extends(F, G) && p.Ok() && Firm(p, F)
    requires y.end + p.minVisit + p.minExit <= F[|F|-1].ts
    ensures y in Table(p, F) <==> y in Table(p, G)
  {
    hide CycleAt, Firm, FullResume, Extends, Long, NextLong;
    if y in Table(p, F) {
      var s :| 0 <= s < |F| && CycleAt(p, F, s) == Some(y);
      ClosedBy(p, F, s);
      CompletedBefore(p, F, s, NextLong(p, F, Load, s + 1));
      FirmCycle(p, F, G, s);
      InExtension(F, G);
    }
    if y in Table(p, G) {
      var s :| 0 <= s < |G| && CycleAt(p, G, s) == Some(y);
      SettledEarlier(p, F, G, s);
      CompletedBefore(p, F, s, NextLong(p, G, Load, s + 1));
      FirmCycle(p, F, G, s);
    }
  }

  lemma InExtension(F: seq<Fix>, G: seq<Fix>)
    requires Extends(F, G)
    ensures |F| <= |G|
  {
  }
}

/** The arithmetic of visits and cycles. */
module Segments {
  import opened Wrappers
  import opened Track
  import opened Cycles
  import Q = Queueing
  import opened Analysis
  import opened Locality
  import opened Restart

  /** Every inside fix belongs to exactly one visit: the last to start by then. */
  lemma {:induction false} InOneVisit(p: Params, F: seq<Fix>, k: Kind, i: nat, s: int)
    requires i < |F| && F[i].In(k) && Sorted(F) && p.Ok()
    ensures StartAt(p, F, k, s) && s <= i < VisitEnd(p, F, k, s) <==> s == LastStart(p, F, k, i + 1)
  {
    InsideFixIsVisited(p, F, k, i);
    var last := LastStart(p, F, k, i + 1);
    if StartAt(p, F, k, s) && s < last {
      VisitsApart(p, F, k, s, last);
    }
  }

  /** The load visit, the dump visit and the closing entry of a completed cycle. */
  lemma {:induction false} CycleParts(p: Params, F: seq<Fix>, s: nat) returns (e: nat, d: nat, v: nat)
    requires Sorted(F) && s < |F| && CycleAt(p, F, s).Some?
    ensures Long(p, F, Load, s) && e == VisitEnd(p, F, Load, s) && s < e <= d < v < |F|
    ensures Long(p, F, Dump, d) && StartAt(p, F, Dump, d) && Long(p, F, Load, v)
    ensures CycleAt(p, F, s).value == CycleFrom(p, F, s, e, d, VisitEnd(p, F, Dump, d), v)
    ensures v == NextLong(p, F, Load, s + 1) && d == NextLong(p, F, Dump, e)
  {
    ClosedBy(p, F, s);
    v := NextLong(p, F, Load, s + 1);
    LongStarts(p, F, Load, s);
    NextLongAfterEnd(p, F, s);
    e := VisitEnd(p, F, Load, s);
    d := NextLong(p, F, Dump, e);
    hide StartAt, VisitEnd, CycleFrom;
    CycleAtIs(p, F, s, e, d, v);
  }

  /** The segments of a cycle add up to its length exactly: the queue never exceeds the time in
      the load zone.  Only the return can be negative, and only when the dump visit outlasts the
      next load visit's entry. */
  lemma {:induction false} SegmentsAddUp(p: Params, F: seq<Fix>, y: Cycle)
    requires Sorted(F) && p.Ok() && y in Table(p, F)
    ensures y.queue + y.load + y.haul + y.dump + y.ret == y.cycleTime == y.end - y.start
    ensures y.queue >= 0 && y.load >= 0 && y.haul >= 0
    ensures y.queue + y.load >= p.minVisit && y.dump >= p.minVisit
    ensures Clear(p, F) ==> y.ret >= 0
  {
    hide CycleAt, Clear;
    var s :| 0 <= s < |F| && CycleAt(p, F, s) == Some(y);
    var e, d, v := CycleParts(p, F, s);
    hide StartAt;
    LongStarts(p, F, Load, s);
    FromSegments(p, F, s, e, d, v);
    if Clear(p, F) {
      ReturnClear(p, F, d, v);
    }
  }

  lemma {:induction false} FromSegments(p: Params, F: seq<Fix>, s: nat, e: nat, d: nat, v: nat)
    requires Sorted(F) && p.Ok() && Long(p, F, Load, s) && StartAt(p, F, Load, s) && e == VisitEnd(p, F, Load, s)
    requires s < e <= d < v < |F| && Long(p, F, Dump, d) && StartAt(p, F, Dump, d)
    ensures var y := CycleFrom(p, F, s, e, d, VisitEnd(p, F, Dump, d), v);
            && y.queue + y.load + y.haul + y.dump + y.ret == y.cycleTime == y.end - y.start
            && y.queue >= 0 && y.load >= 0 && y.haul >= 0
            && y.queue + y.load >= p.minVisit && y.dump >= p.minVisit
            && y.ret == F[v].ts - ExitTs(p, F, Dump, d)
  {
    hide Queue, CreditedZone, StartAt;
    QueueWithinVisit(p, F[s..e], F[e].ts);
    assert F[s..e][0] == F[s] && F[d..VisitEnd(p, F, Dump, d)][0] == F[d];
  }

  lemma ReturnClear(p: Params, F: seq<Fix>, d: nat, v: nat)
    requires Sorted(F) && Clear(p, F) && d < v < |F| && Long(p, F, Load, v) && StartAt(p, F, Dump, d)
    ensures F[v].ts - ExitTs(p, F, Dump, d) >= 0
  {
    hide StartAt, Long;
    assert ClearAt(p, F, Dump, v);
  }

  /** The return is negative exactly when the dump visit is left after the next load entry. */
  lemma {:induction false} ReturnSign(p: Params, F: seq<Fix>, s: nat)
    requires Sorted(F) && p.Ok() && s < |F| && CycleAt(p, F, s).Some?
    ensures var d := NextLong(p, F, Dump, VisitEnd(p, F, Load, s));
            d < |F| && (CycleAt(p, F, s).value.ret < 0 <==> ExitTs(p, F, Dump, d) > CycleAt(p, F, s).value.end)
  {
    ClosedBy(p, F, s);
    hide StartAt, VisitEnd, Queue, CreditedZone;
  }

  /** Visit `V` was in zone `z` most, and in it first of those it was in as much. */
  ghost predicate MostIn(V: seq<Fix>, k: Kind, z: Option<ZoneId>) {
    && z.Some? && (exists f :: FirstBest(V, k, z, f))
    && forall j :: 0 <= j < |V| && V[j].Zone(k).Some? ==> Count(V, k, V[j].Zone(k).value) <= Count(V, k, z.value)
  }

  lemma CreditedMost(V: seq<Fix>, k: Kind)
    requires |V| > 0 && V[0].In(k)
    ensures MostIn(V, k, CreditedZone(V, k))
  {
    CreditedFirst(V, k);
    hide Count, CreditedZone, FirstBest;
    assert V[0].Zone(k).Some?;
  }

  lemma EntryInside(p: Params, F: seq<Fix>, k: Kind, s: nat)
    requires s < |F| && StartAt(p, F, k, s)
    ensures F[s].In(k) && s < VisitEnd(p, F, k, s) <= |F| && F[s..VisitEnd(p, F, k, s)][0] == F[s]
  {
  }

  /** Said of the fixes: from its first fix in the load zone the truck waits as its stops tell, then loads
      until the first fix outside; it hauls until its first fix in the dump zone, dumps until it has left,
      and returns until the fix that closes the cycle.  Each zone named held most of its visit. */
  ghost predicate TimesAre(p: Params, F: seq<Fix>, s: nat, e: nat, d: nat, de: nat, v: nat, y: Cycle) {
    && s < e <= d < v < |F| && d < de <= |F|
    && y.start == F[s].ts && y.start + y.queue + y.load == F[e].ts
    && F[e].ts + y.haul == F[d].ts && F[d].ts + y.dump == TimeAt(F, de) && TimeAt(F, de) + y.ret == F[v].ts
    && y.end == F[v].ts && y.cycleTime == y.end - y.start
    && (forall stops :: Q.AreStops(p, F[s..e], stops) ==> Q.Waits(p, F[s..e], F[e].ts, stops, y.queue))
    && MostIn(F[s..e], Load, y.loadZone) && MostIn(F[d..de], Dump, y.dumpZone)
  }

  lemma TimesOf(p: Params, F: seq<Fix>, s: nat, e: nat, d: nat, de: nat, v: nat)
    requires s < e <= d < v < |F| && d < de <= |F| && F[s].In(Load) && F[d].In(Dump) && Sorted(F)
    ensures TimesAre(p, F, s, e, d, de, v, CycleFrom(p, F, s, e, d, de, v))
  {
    hide Queue, CreditedZone, MostIn, Q.AreStops, Q.Waits;
    var L, D := F[s..e], F[d..de];
    assert L[0] == F[s] && D[0] == F[d];
    CreditedMost(L, Load);
    CreditedMost(D, Dump);
    Q.AllWait(p, L, F[e].ts);
    QueueWithinVisit(p, L, F[e].ts);
  }

  /** The segments of the cycle that the load visit starting at `s` opens. */
  lemma {:induction false} SegmentsAre(p: Params, F: seq<Fix>, s: nat)
    requires Sorted(F) && s < |F| && CycleAt(p, F, s).Some?
    ensures var e, v := VisitEnd(p, F, Load, s), NextLong(p, F, Load, s + 1);
            s < e <= |F| && var d := NextLong(p, F, Dump, e);
            d < |F| && TimesAre(p, F, s, e, d, VisitEnd(p, F, Dump, d), v, CycleAt(p, F, s).value)
  {
    hide *;
    var e, d, v := CycleParts(p, F, s);
    LongStarts(p, F, Load, s);
    EntryInside(p, F, Load, s);
    EntryInside(p, F, Dump, d);
    TimesOf(p, F, s, e, d, VisitEnd(p, F, Dump, d), v);
  }

  /** A load visit opens a completed cycle exactly when it counts, another that counts follows within the cap, and
      a dump visit that counts starts after it was left and before that. */
  lemma {:induction false} OpensExactly(p: Params, F: seq<Fix>, s: nat)
    requires s < |F|
    ensures CycleAt(p, F, s).Some? <==>
      Long(p, F, Load, s) && var n := NextLong(p, F, Load, s + 1);
        n < |F| && (p.cap.Some? ==> F[n].ts <= F[s].ts + p.cap.value)
        && VisitEnd(p, F, Load, s) <= NextLong(p, F, Dump, VisitEnd(p, F, Load, s)) < n
  {
    if Long(p, F, Load, s) && NextLong(p, F, Load, s + 1) < |F| {
      NextLongAfterEnd(p, F, s);
    }
    hide Long, VisitEnd, StartAt, CycleFrom;
  }
}

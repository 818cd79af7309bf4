/** One asset's GNSS track and the visits it makes to the load and dump zones.

    A track is a sequence of fixes in strictly increasing device time.  Zones are fixed, so every
    fix carries the zone it lies in, of each kind, if any, and all the zones it lies in.  Visits
    are described here without a loop (where one starts, where it ends), and `Analysis` proves that
    the loop of the program computes exactly these.  Times are whole microseconds. */
module Track {
  import opened Wrappers

  type ZoneId = nat

  datatype Kind = Load | Dump

  datatype Fix = Fix(ts: int, lat: real, lon: real, speed: Option<real>,
                     load: Option<ZoneId>, dump: Option<ZoneId>, zones: set<ZoneId>)
  {
    function Zone(k: Kind): Option<ZoneId> {
      if k == Load then load else dump
    }

    predicate In(k: Kind) {
      Zone(k).Some?
    }
  }

  datatype Point = Point(lat: real, lon: real)

  /** The parameters of an analysis: the shortest visit that counts, the shortest time outside
      that ends a visit, the longest haul cycle (if there is a cap), the speed from which a
      truck is moving, and the distance between two points, about which nothing is assumed. */
  datatype Params = Params(minVisit: int, minExit: int, cap: Option<int>, moveKph: real,
                           dist: (Point, Point) -> real)
  {
    /** What the constants of the program satisfy: both 15 s, and a cap of at least 600 s. */
    predicate Ok() {
      0 < minExit <= minVisit && (cap.Some? ==> 0 < cap.value)
    }

    predicate TooLong(dt: int) {
      cap.Some? && dt > cap.value
    }
  }

  ghost predicate Sorted(F: seq<Fix>) {
    forall i, j :: 0 <= i < j < |F| ==> F[i].ts < F[j].ts
  }

  /** Fix `i` starts a visit: it is inside, and every earlier inside fix belongs to a run that
      was left at least `minExit` before. */
  ghost predicate StartAt(p: Params, F: seq<Fix>, k: Kind, i: int) {
    && 0 <= i < |F|
    && F[i].In(k)
    && forall j {:trigger F[j].In(k)} :: 0 <= j < i && F[j].In(k) ==> j + 1 < i && F[i].ts - F[j+1].ts >= p.minExit
  }

  /** The first visit start at or after `i`, or the length of the track. */
  ghost function NextStart(p: Params, F: seq<Fix>, k: Kind, i: nat): (n: nat)
    requires i <= |F|
    ensures i <= n <= |F|
    ensures n < |F| ==> StartAt(p, F, k, n)
    ensures forall j :: i <= j < n ==> !StartAt(p, F, k, j)
    decreases |F| - i
  {
    if i == |F| || StartAt(p, F, k, i) then i else NextStart(p, F, k, i + 1)
  }

  /** The last inside fix before `n`, or -1. */
  ghost function LastIn(F: seq<Fix>, k: Kind, n: nat): (r: int)
    requires n <= |F|
    ensures -1 <= r < n
    ensures r >= 0 ==> F[r].In(k)
    ensures forall j {:trigger F[j].In(k)} :: r < j < n ==> !F[j].In(k)
  {
    if n == 0 then -1 else if F[n-1].In(k) then n - 1 else LastIn(F, k, n - 1)
  }

  /** One past the last fix of the visit starting at `s`. */
  ghost function VisitEnd(p: Params, F: seq<Fix>, k: Kind, s: nat): (e: nat)
    requires StartAt(p, F, k, s)
    ensures s < e <= NextStart(p, F, k, s + 1) && F[e-1].In(k)
    ensures forall j {:trigger F[j].In(k)} :: e <= j < NextStart(p, F, k, s + 1) ==> !F[j].In(k)
  {
    LastIn(F, k, NextStart(p, F, k, s + 1)) + 1
  }

  /** The time of fix `i`, or of the last fix when there is none. */
  function TimeAt(F: seq<Fix>, i: nat): int
    requires |F| > 0
  {
    if i < |F| then F[i].ts else F[|F|-1].ts
  }

  /** When the visit starting at `s` was left: the first fix after it, or the last fix of all. */
  ghost function ExitTs(p: Params, F: seq<Fix>, k: Kind, s: nat): int
    requires StartAt(p, F, k, s)
  {
    TimeAt(F, VisitEnd(p, F, k, s))
  }

  /** A visit that is long enough to count starts at `s`. */
  ghost predicate Long(p: Params, F: seq<Fix>, k: Kind, s: int) {
    StartAt(p, F, k, s) && ExitTs(p, F, k, s) - F[s].ts >= p.minVisit
  }

  /** The first start, at or after `i`, of a visit that counts. */
  ghost function NextLong(p: Params, F: seq<Fix>, k: Kind, i: nat): (n: nat)
    requires i <= |F|
    ensures i <= n <= |F|
    ensures n < |F| ==> Long(p, F, k, n)
    ensures forall j :: i <= j < n ==> !Long(p, F, k, j)
    decreases |F| - i
  {
    if i == |F| || Long(p, F, k, i) then i else NextLong(p, F, k, i + 1)
  }

  /** The last start, before `i`, of a visit that counts; or -1. */
  ghost function LastLong(p: Params, F: seq<Fix>, k: Kind, i: nat): (r: int)
    requires i <= |F|
    ensures -1 <= r < i
    ensures r >= 0 ==> Long(p, F, k, r)
    ensures forall j :: r < j < i ==> !Long(p, F, k, j)
  {
    if i == 0 then -1 else if Long(p, F, k, i - 1) then i - 1 else LastLong(p, F, k, i - 1)
  }

  /** The last visit start before `i`, or -1. */
  ghost function LastStart(p: Params, F: seq<Fix>, k: Kind, i: nat): (r: int)
    requires i <= |F|
    ensures -1 <= r < i
    ensures r >= 0 ==> StartAt(p, F, k, r)
    ensures forall j :: r < j < i ==> !StartAt(p, F, k, j)
  {
    if i == 0 then -1 else if StartAt(p, F, k, i - 1) then i - 1 else LastStart(p, F, k, i - 1)
  }

  // ---- what holds of the visits of every track ------------------------------------------------

  lemma NextStartIs(p: Params, F: seq<Fix>, k: Kind, i: nat, n: nat)
    requires i <= n <= |F| && (n < |F| ==> StartAt(p, F, k, n))
    requires forall j :: i <= j < n ==> !StartAt(p, F, k, j)
    ensures NextStart(p, F, k, i) == n
  {
  }

  /** An inside fix between a visit's start and the next start belongs to the visit: visits of
      one kind contain every inside fix. */
  lemma {:induction false} InsideFixIsVisited(p: Params, F: seq<Fix>, k: Kind, i: nat)
    requires i < |F| && F[i].In(k) && Sorted(F) && p.Ok()
    ensures var s := LastStart(p, F, k, i + 1);
            s >= 0 && s <= i < VisitEnd(p, F, k, s)
  {
    var s := LastStart(p, F, k, i + 1);
    if s < 0 {
      FirstInsideStarts(p, F, k, i);
      assert false;
    }
  }

  /** The first inside fix of a track starts a visit. */
  lemma {:induction false} FirstInsideStarts(p: Params, F: seq<Fix>, k: Kind, i: nat)
    requires i < |F| && F[i].In(k)
    ensures exists s :: 0 <= s <= i && StartAt(p, F, k, s)
  {
    if j :| 0 <= j < i && F[j].In(k) {
      FirstInsideStarts(p, F, k, j);
    } else {
      assert StartAt(p, F, k, i);
    }
  }

  /** Two visits of one kind are at least `minExit` apart: the next starts that long after the
      first was left. */
  lemma {:induction false} VisitsApart(p: Params, F: seq<Fix>, k: Kind, s: nat, v: nat)
    requires StartAt(p, F, k, s) && StartAt(p, F, k, v) && s < v && Sorted(F)
    ensures VisitEnd(p, F, k, s) < v
    ensures F[v].ts - ExitTs(p, F, k, s) >= p.minExit
  {
    var e := VisitEnd(p, F, k, s);
    assert NextStart(p, F, k, s + 1) <= v;
    assert F[e-1].In(k);
  }
}

/** Per-asset metrics over fixed time buckets, and which buckets new fixes can change. */
module Metrics {
  import opened Wrappers
  import opened Track
  import opened Cycles
  import opened Locality

  datatype Bucket = Bucket(distance: real, moving: int, idle: int, maxSpeed: real,
                           speedSum: real, speedN: nat, dwell: map<ZoneId, int>, loads: nat)

  const EMPTY := Bucket(0.0, 0, 0, 0.0, 0.0, 0, map[], 0)

  /** The start of the bucket of length `w` that holds time `t`. */
  function Floor(t: int, w: int): (b: int)
    requires w > 0
    ensures b <= t < b + w
  {
    w * (t / w)
  }

  lemma MulMono(w: int, x: int, y: int)
    requires w > 0 && x <= y
    ensures w * x <= w * y
  {
  }

  lemma FloorMono(t: int, u: int, w: int)
    requires w > 0 && t <= u
    ensures Floor(t, w) <= Floor(u, w)
  {
    if t / w > u / w {
      MulMono(w, u / w + 1, t / w);
    } else {
      MulMono(w, t / w, u / w);
    }
  }

  /** A time before a bucket's start lies in a bucket that is over by then. */
  lemma FloorBefore(t: int, u: int, w: int)
    requires w > 0 && t < Floor(u, w)
    ensures Floor(t, w) + w <= Floor(u, w)
  {
    if t / w >= u / w {
      MulMono(w, u / w, t / w);
    } else {
      MulMono(w, t / w + 1, u / w);
    }
  }

  lemma FloorAgain(t: int, w: int)
    requires w > 0
    ensures Floor(Floor(t, w), w) == Floor(t, w)
  {
    var b := Floor(t, w);
    if b / w > t / w {
      MulMono(w, t / w + 1, b / w);
    } else if b / w < t / w {
      MulMono(w, b / w + 1, t / w);
    }
  }

  /** The boundary after a boundary. */
  lemma FloorNext(b: int, w: int)
    requires w > 0 && Floor(b, w) == b
    ensures Floor(b + w, w) == b + w
  {
    assert b + w == w * (b / w + 1);
    if (b + w) / w > b / w + 1 {
      MulMono(w, b / w + 2, (b + w) / w);
    } else if (b + w) / w < b / w + 1 {
      MulMono(w, (b + w) / w + 1, b / w + 1);
    }
  }

  /** The boundary before a bucket's start. */
  lemma FloorPrevious(d: int, w: int)
    requires w > 0
    ensures Floor(Floor(d, w) - w, w) == Floor(d, w) - w
  {
    var b := Floor(d, w) - w;
    assert b == w * (d / w - 1);
    if b / w > d / w - 1 {
      MulMono(w, d / w, b / w);
    } else if b / w < d / w - 1 {
      MulMono(w, b / w + 1, d / w - 1);
    }
  }

  function AddSpeed(b: Bucket, f: Fix): Bucket {
    match f.speed
    case None => b
    case Some(v) =>
      b.(maxSpeed := if v > b.maxSpeed then v else b.maxSpeed, speedSum := b.speedSum + v, speedN := b.speedN + 1)
  }

  function AddDwell(dwell: map<ZoneId, int>, zones: set<ZoneId>, dt: int): map<ZoneId, int> {
    map z | z in dwell.Keys + zones ::
      (if z in dwell then dwell[z] else 0) + (if z in zones then dt else 0)
  }

  /** The time from a fix to the next counts toward the fix's own bucket, unless it is a gap. */
  function AddInterval(p: Params, w: int, b: Bucket, f: Fix, next: Fix): Bucket {
    var dt := next.ts - f.ts;
    if !(0 < dt <= w) then b
    else
      var moved := if f.speed.None? then b
        else if f.speed.value >= p.moveKph then
          b.(moving := b.moving + dt, distance := b.distance + p.dist(Point(f.lat, f.lon), Point(next.lat, next.lon)))
        else b.(idle := b.idle + dt);
      moved.(dwell := AddDwell(moved.dwell, f.zones, dt))
  }

  function AddFix(p: Params, w: int, b: Bucket, F: seq<Fix>, i: nat): Bucket
    requires i < |F|
  {
    var c := AddSpeed(b, F[i]);
    if i + 1 < |F| then AddInterval(p, w, c, F[i], F[i+1]) else c
  }

  /** What the first `i` fixes put into the bucket starting at `b`. */
  function Content(p: Params, w: int, F: seq<Fix>, b: int, i: nat): Bucket
    requires i <= |F| && w > 0
  {
    if i == 0 then EMPTY
    else if Floor(F[i-1].ts, w) == b then AddFix(p, w, Content(p, w, F, b, i - 1), F, i - 1)
    else Content(p, w, F, b, i - 1)
  }

  /** How many of the cycles, in turn, end in the bucket starting at `b`. */
  function EndsIn(cycles: seq<Cycle>, w: int, b: int): nat
    requires w > 0
  {
    if |cycles| == 0 then 0
    else EndsIn(cycles[..|cycles|-1], w, b) + (if Floor(cycles[|cycles|-1].end, w) == b then 1 else 0)
  }

  function Starts(F: seq<Fix>, w: int): set<int>
    requires w > 0
  {
    set i | 0 <= i < |F| :: Floor(F[i].ts, w)
  }

  // ---- what a bucket depends on ---------------------------------------------------------------

  /** Buckets from a boundary on read only the fixes from there on. */
  lemma {:induction false} CutContent(p: Params, w: int, F: seq<Fix>, lo: nat, W: seq<Fix>, u: int, b: int, i: nat)
    requires w > 0 && Cut(F, lo, W) && lo <= i <= |F| && Floor(u, w) <= b
    requires forall j :: 0 <= j < lo ==> F[j].ts < Floor(u, w)
    ensures Content(p, w, W, b, i - lo) == Content(p, w, F, b, i)
    decreases i
  {
    if i > lo {
      assert F[i-1] == W[i-1 - lo];
      assert i < |F| ==> F[i] == W[i - lo];
      hide AddSpeed, AddInterval;
      CutContent(p, w, F, lo, W, u, b, i - 1);
    } else {
      NothingBefore(p, w, F, u, b, i);
    }
  }

  lemma {:induction false} NothingBefore(p: Params, w: int, F: seq<Fix>, u: int, b: int, i: nat)
    requires w > 0 && i <= |F| && Floor(u, w) <= b
    requires forall j :: 0 <= j < i ==> F[j].ts < Floor(u, w)
    ensures Content(p, w, F, b, i) == EMPTY
  {
    if i > 0 {
      FloorBefore(F[i-1].ts, u, w);
      NothingBefore(p, w, F, u, b, i - 1);
    }
  }

  /** From fix `n` on nothing falls in bucket `b`. */
  lemma {:induction false} NothingAfter(p: Params, w: int, F: seq<Fix>, b: int, n: nat, i: nat)
    requires w > 0 && n <= i <= |F| && forall j :: n <= j < |F| ==> F[j].ts >= b + w
    ensures Content(p, w, F, b, i) == Content(p, w, F, b, n)
    decreases i
  {
    if i > n {
      NothingAfter(p, w, F, b, n, i - 1);
    }
  }

  /** A bucket over by the boundary `u` is the same in tracks that share the fixes before it,
      when the fix that follows those is the same, or a gap away, in each. */
  lemma {:induction false} ShareContent(p: Params, w: int, F: seq<Fix>, G: seq<Fix>, n: nat, b: int, i: nat)
    requires w > 0 && Share(F, G, n) && i <= n
    requires i == n && n > 0 ==> Floor(F[n-1].ts, w) != b || (Gap(w, F, n) && Gap(w, G, n))
    ensures Content(p, w, F, b, i) == Content(p, w, G, b, i)
    decreases i
  {
    if i > 0 {
      ShareAt(F, G, n, i - 1);
      if i < n {
        ShareAt(F, G, n, i);
      }
      ShareContent(p, w, F, G, n, b, i - 1);
    }
  }

  /** No fix follows the first `n`, or it follows too late for the time between to count. */
  ghost predicate Gap(w: int, F: seq<Fix>, n: nat)
    requires 0 < n <= |F|
  {
    n < |F| ==> F[n].ts - F[n-1].ts > w
  }

  lemma {:induction false} ShareBucket(p: Params, w: int, F: seq<Fix>, G: seq<Fix>, n: nat, b: int)
    requires w > 0 && Share(F, G, n)
    requires forall j :: n <= j < |F| ==> F[j].ts >= b + w
    requires forall j :: n <= j < |G| ==> G[j].ts >= b + w
    requires n > 0 ==> Floor(F[n-1].ts, w) != b || (Gap(w, F, n) && Gap(w, G, n))
    ensures Content(p, w, F, b, |F|) == Content(p, w, G, b, |G|)
    ensures b in Starts(F, w) <==> b in Starts(G, w)
  {
    NothingAfter(p, w, F, b, n, |F|);
    NothingAfter(p, w, G, b, n, |G|);
    ShareContent(p, w, F, G, n, b, n);
    if b in Starts(F, w) {
      var i :| 0 <= i < |F| && b == Floor(F[i].ts, w);
      ShareAt(F, G, n, i);
    }
    if b in Starts(G, w) {
      var i :| 0 <= i < |G| && b == Floor(G[i].ts, w);
      ShareAt(F, G, n, i);
    }
  }
}

/** The multi-object tracker of one camera: two-stage association of detections to tracks, and the
    life of a track from tentative to confirmed to dropped. */
module Tracking {
  import opened Wrappers
  import opened Association

  datatype Box = Box(x1: real, y1: real, x2: real, y2: real)

  datatype Detection = Detection(class_: nat, confidence: real, box: Box)

  datatype Track = Track(num: nat, class_: nat, cx: real, cy: real, w: real, h: real, vx: real, vy: real,
                         last: Box, hits: nat, missed: nat, confirmed: bool, ts: int)

  /** A confirmed track observed in a frame: its id is the camera's, with its number. */
  datatype Tracked = Tracked(num: nat, class_: nat, confidence: real, box: Box)

  datatype Config = Config(high: real, low: real, matchIou: real, minHits: nat, maxMissed: nat,
                           alpha: real, beta: real, decay: real)

  const SECOND := 1_000_000.0  // times are in microseconds

  function Max(a: real, b: real): real {
    if a < b then b else a
  }

  function Min(a: real, b: real): real {
    if a < b then a else b
  }

  function Iou(a: Box, b: Box): real {
    var iw, ih := Min(a.x2, b.x2) - Max(a.x1, b.x1), Min(a.y2, b.y2) - Max(a.y1, b.y1);
    if iw <= 0.0 || ih <= 0.0 then 0.0
    else
      var inter := iw * ih;
      var union := (a.x2 - a.x1) * (a.y2 - a.y1) + (b.x2 - b.x1) * (b.y2 - b.y1) - inter;
      if union > 0.0 then inter / union else 0.0
  }

  function Predicted(t: Track, ts: int): Box {
    var dt := (ts - t.ts) as real / SECOND;
    var cx, cy := t.cx + t.vx * dt, t.cy + t.vy * dt;
    Box(cx - t.w / 2.0, cy - t.h / 2.0, cx + t.w / 2.0, cy + t.h / 2.0)
  }

  /** A track is matched on the better of its predicted and its last observed box. */
  function Score(t: Track, ts: int, d: Detection): real {
    Max(Iou(Predicted(t, ts), d.box), Iou(t.last, d.box))
  }

  /** The track corrected by its detection. */
  function Correct(c: Config, t: Track, d: Detection, ts: int): (u: Track)
    ensures u.num == t.num && u.class_ == t.class_ && u.hits == t.hits + 1 && u.missed == 0
    ensures u.last == d.box && u.ts == ts
    ensures u.confirmed == (t.confirmed || u.hits >= c.minHits)
  {
    var dt := (ts - t.ts) as real / SECOND;
    var mx, my := (d.box.x1 + d.box.x2) / 2.0, (d.box.y1 + d.box.y2) / 2.0;
    var px, py := t.cx + t.vx * dt, t.cy + t.vy * dt;
    var rx, ry := mx - px, my - py;
    t.(cx := px + c.alpha * rx, cy := py + c.alpha * ry,
       vx := if dt > 0.0 then t.vx + c.beta * rx / dt else t.vx,
       vy := if dt > 0.0 then t.vy + c.beta * ry / dt else t.vy,
       w := d.box.x2 - d.box.x1, h := d.box.y2 - d.box.y1, last := d.box, hits := t.hits + 1, missed := 0, ts := ts,
       confirmed := t.confirmed || t.hits + 1 >= c.minHits)
  }

  /** A track that was not matched coasts. */
  function Coast(c: Config, t: Track): Track {
    t.(missed := t.missed + 1, vx := t.vx * c.decay, vy := t.vy * c.decay)
  }

  predicate Survives(c: Config, t: Track) {
    t.confirmed && t.missed + 1 <= c.maxMissed
  }

  function New(c: Config, num: nat, d: Detection, ts: int): Track {
    Track(num, d.class_, (d.box.x1 + d.box.x2) / 2.0, (d.box.y1 + d.box.y2) / 2.0, d.box.x2 - d.box.x1,
          d.box.y2 - d.box.y1, 0.0, 0.0, d.box, 1, 0, c.minHits <= 1, ts)
  }

  // ---- candidates -----------------------------------------------------------------------------

  function CandidatesOf(t: Track, i: nat, dets: seq<Detection>, n: nat, ts: int): seq<Pair>
    requires n <= |dets|
  {
    if n == 0 then []
    else
      CandidatesOf(t, i, dets, n - 1, ts) +
      (if t.class_ == dets[n-1].class_ then [Pair(Score(t, ts, dets[n-1]), i, n - 1)] else [])
  }

  /** Every track with every detection of its class. */
  function Candidates(tracks: seq<Track>, dets: seq<Detection>, n: nat, ts: int): seq<Pair>
    requires n <= |tracks|
  {
    if n == 0 then []
    else Candidates(tracks, dets, n - 1, ts) + CandidatesOf(tracks[n-1], n - 1, dets, |dets|, ts)
  }

  predicate IsCandidate(tracks: seq<Track>, dets: seq<Detection>, ts: int, p: Pair) {
    p.t < |tracks| && p.d < |dets| && tracks[p.t].class_ == dets[p.d].class_ &&
      p.score == Score(tracks[p.t], ts, dets[p.d])
  }

  lemma {:induction false} CandidatesOfAre(t: Track, i: nat, dets: seq<Detection>, n: nat, ts: int)
    requires n <= |dets|
    ensures Distinct(CandidatesOf(t, i, dets, n, ts))
    ensures forall p :: p in CandidatesOf(t, i, dets, n, ts) <==>
      p.t == i && p.d < n && t.class_ == dets[p.d].class_ && p.score == Score(t, ts, dets[p.d])
  {
    hide Score;
    if n > 0 {
      CandidatesOfAre(t, i, dets, n - 1, ts);
    }
  }

  lemma {:induction false} CandidatesIn(tracks: seq<Track>, dets: seq<Detection>, n: nat, ts: int, p: Pair)
    requires n <= |tracks|
    ensures p in Candidates(tracks, dets, n, ts) <==> p.t < n && IsCandidate(tracks, dets, ts, p)
  {
    hide Score, CandidatesOf;
    if n > 0 {
      CandidatesIn(tracks, dets, n - 1, ts, p);
      CandidatesOfAre(tracks[n-1], n - 1, dets, |dets|, ts);
    }
  }

  lemma {:induction false} CandidatesDistinct(tracks: seq<Track>, dets: seq<Detection>, n: nat, ts: int)
    requires n <= |tracks|
    ensures Distinct(Candidates(tracks, dets, n, ts))
  {
    if n > 0 {
      CandidatesDistinct(tracks, dets, n - 1, ts);
      CandidatesOfAre(tracks[n-1], n - 1, dets, |dets|, ts);
      var A, B := Candidates(tracks, dets, n - 1, ts), CandidatesOf(tracks[n-1], n - 1, dets, |dets|, ts);
      assert Candidates(tracks, dets, n, ts) == A + B;
      forall i | 0 <= i < |A| ensures A[i].t < n - 1 {
        CandidatesIn(tracks, dets, n - 1, ts, A[i]);
      }
      forall i | 0 <= i < |B| ensures B[i].t == n - 1 {
        assert B[i] in B;
      }
      hide *;
      DistinctParts(A, B, n - 1);
    }
  }

  lemma DistinctParts(A: seq<Pair>, B: seq<Pair>, n: nat)
    requires Distinct(A) && Distinct(B)
    requires (forall i :: 0 <= i < |A| ==> A[i].t < n) && (forall i :: 0 <= i < |B| ==> B[i].t == n)
    ensures Distinct(A + B)
  {
  }

  lemma {:induction false} CandidatesAre(tracks: seq<Track>, dets: seq<Detection>, n: nat, ts: int)
    requires n <= |tracks|
    ensures Distinct(Candidates(tracks, dets, n, ts))
    ensures forall p :: p in Candidates(tracks, dets, n, ts) <==> p.t < n && IsCandidate(tracks, dets, ts, p)
  {
    hide *;
    CandidatesDistinct(tracks, dets, n, ts);
    forall p {
      CandidatesIn(tracks, dets, n, ts, p);
    }
  }

  /** The matching of a stage: the only stable one. */
  ghost predicate Matching(c: Config, tracks: seq<Track>, dets: seq<Detection>, ts: int, M: seq<Pair>) {
    Stable(Candidates(tracks, dets, |tracks|, ts), c.matchIou, M) && Ordered(M)
  }

  // ---- association ----------------------------------------------------------------------------

  function Keep<T(!new)>(s: seq<T>, used: set<nat>): (r: seq<T>)
    ensures forall x :: x in r <==> exists i :: 0 <= i < |s| && i !in used && s[i] == x
  {
    if |s| == 0 then []
    else
      var rest := Keep(s[..|s|-1], used);
      assert s == s[..|s|-1] + [s[|s|-1]];
      if |s| - 1 in used then rest else rest + [s[|s|-1]]
  }

  function TracksUsed(M: seq<Pair>): (u: set<nat>)
    ensures forall i :: i in u <==> exists m :: m in M && m.t == i
  {
    set m | m in M :: m.t
  }

  function DetsUsed(M: seq<Pair>): (u: set<nat>)
    ensures forall i :: i in u <==> exists m :: m in M && m.d == i
  {
    set m | m in M :: m.d
  }

  ghost predicate Within(M: seq<Pair>, tracks: seq<Track>, dets: seq<Detection>, ts: int) {
    forall i :: 0 <= i < |M| ==> IsCandidate(tracks, dets, ts, M[i])
  }

  /** The matched tracks with their detections. */
  function Joined(M: seq<Pair>, tracks: seq<Track>, dets: seq<Detection>, ghost ts: int): (r: seq<(Track, Detection)>)
    requires Within(M, tracks, dets, ts)
    ensures |r| == |M| && forall i :: 0 <= i < |M| ==> r[i] == (tracks[M[i].t], dets[M[i].d])
  {
    if |M| == 0 then []
    else Joined(M[..|M|-1], tracks, dets, ts) + [(tracks[M[|M|-1].t], dets[M[|M|-1].d])]
  }

  method Associate(c: Config, dets: seq<Detection>, tracks: seq<Track>, ts: int)
    returns (matched: seq<(Track, Detection)>, restT: seq<Track>, restD: seq<Detection>, ghost M: seq<Pair>)
    ensures Matching(c, tracks, dets, ts, M) && Within(M, tracks, dets, ts)
    ensures matched == Joined(M, tracks, dets, ts)
    ensures restT == Keep(tracks, TracksUsed(M)) && restD == Keep(dets, DetsUsed(M))
  {
    var P := Candidates(tracks, dets, |tracks|, ts);
    CandidatesAre(tracks, dets, |tracks|, ts);
    var G := Greedy(P, c.matchIou);
    M := G;
    hide Candidates, Score, Ordered;
    forall i | 0 <= i < |G| ensures IsCandidate(tracks, dets, ts, G[i]) {
      assert G[i] in P;
    }
    matched := Joined(G, tracks, dets, ts);
    restT := Keep(tracks, TracksUsed(G));
    restD := Keep(dets, DetsUsed(G));
  }

  function Filter(dets: seq<Detection>, lo: real, hi: real): (r: seq<Detection>)
    ensures forall d :: d in r <==> d in dets && lo <= d.confidence < hi
  {
    if |dets| == 0 then []
    else
      var last := dets[|dets|-1];
      assert dets == dets[..|dets|-1] + [last];
      Filter(dets[..|dets|-1], lo, hi) + (if lo <= last.confidence < hi then [last] else [])
  }

  function FilterHigh(dets: seq<Detection>, hi: real): (r: seq<Detection>)
    ensures forall d :: d in r <==> d in dets && d.confidence >= hi
  {
    if |dets| == 0 then []
    else
      var last := dets[|dets|-1];
      assert dets == dets[..|dets|-1] + [last];
      FilterHigh(dets[..|dets|-1], hi) + (if last.confidence >= hi then [last] else [])
  }

  function ConfirmedOf(tracks: seq<Track>): (r: seq<Track>)
    ensures forall t :: t in r <==> t in tracks && t.confirmed
  {
    if |tracks| == 0 then []
    else
      var last := tracks[|tracks|-1];
      assert tracks == tracks[..|tracks|-1] + [last];
      ConfirmedOf(tracks[..|tracks|-1]) + (if last.confirmed then [last] else [])
  }

  // ---- one frame ------------------------------------------------------------------------------

  /** Numbers rise along the list and are below the next to be given; a track is confirmed by its
      hits, an unconfirmed one has missed no frame, and none has missed more than allowed. */
  ghost predicate Good(c: Config, tracks: seq<Track>, next: nat) {
    && (forall i, j :: 0 <= i < j < |tracks| ==> tracks[i].num < tracks[j].num)
    && (forall t :: t in tracks ==> GoodTrack(c, t) && 1 <= t.num < next)
  }

  predicate GoodTrack(c: Config, t: Track) {
    t.hits >= 1 && t.confirmed == (t.hits >= c.minHits) && (!t.confirmed ==> t.missed == 0)
    && (t.missed == 0 || t.missed <= c.maxMissed)
  }

  /** No track is matched twice, and none with a detection of another class, too low an overlap or
      too low a confidence; a low one only with a confirmed track. */
  ghost predicate FairMatch(c: Config, tracks: seq<Track>, dets: seq<Detection>, ts: int,
                            matched: seq<(Track, Detection)>) {
    && NumsDiffer(matched)
    && (forall m :: m in matched ==> FairPair(c, tracks, dets, ts, m.0, m.1))
  }

  ghost predicate NumsDiffer(matched: seq<(Track, Detection)>) {
    forall i, j :: 0 <= i < j < |matched| ==> matched[i].0.num != matched[j].0.num
  }

  ghost predicate FairPair(c: Config, tracks: seq<Track>, dets: seq<Detection>, ts: int, t: Track, d: Detection) {
    t in tracks && d in dets && t.class_ == d.class_ && Score(t, ts, d) >= c.matchIou
    && (d.confidence >= c.high || d.confidence >= c.low) && (d.confidence < c.high ==> t.confirmed)
  }

  function MatchOf(matched: seq<(Track, Detection)>, num: nat): (d: Option<Detection>)
    ensures d.Some? ==> exists m :: m in matched && m.0.num == num && m.1 == d.value
    ensures d.None? ==> forall m :: m in matched ==> m.0.num != num
  {
    if |matched| == 0 then None
    else
      var last := matched[|matched|-1];
      assert matched == matched[..|matched|-1] + [last];
      if last.0.num == num then Some(last.1) else MatchOf(matched[..|matched|-1], num)
  }

  /** What becomes of the first `n` tracks: matched ones corrected, confirmed ones coasting while
      they may, the others dropped. */
  function Survivors(c: Config, tracks: seq<Track>, matched: seq<(Track, Detection)>, ts: int, n: nat): seq<Track>
    requires n <= |tracks|
  {
    if n == 0 then []
    else
      var t := tracks[n-1];
      var d := MatchOf(matched, t.num);
      Survivors(c, tracks, matched, ts, n - 1) +
      (if d.Some? then [Correct(c, t, d.value, ts)] else if Survives(c, t) then [Coast(c, t)] else [])
  }

  function Starts(c: Config, next: nat, dets: seq<Detection>, ts: int, n: nat): (r: seq<Track>)
    requires n <= |dets|
    ensures |r| == n && forall i :: 0 <= i < n ==> r[i] == New(c, next + i, dets[i], ts)
  {
    if n == 0 then [] else Starts(c, next, dets, ts, n - 1) + [New(c, next + n - 1, dets[n-1], ts)]
  }

  function Reported(c: Config, matched: seq<(Track, Detection)>, ts: int, n: nat): seq<Tracked>
    requires n <= |matched|
  {
    if n == 0 then []
    else
      var (t, d) := matched[n-1];
      Reported(c, matched, ts, n - 1) +
      (if Correct(c, t, d, ts).confirmed then [Tracked(t.num, t.class_, d.confidence, d.box)] else [])
  }

  ghost predicate Rising(tracks: seq<Track>) {
    forall i, j :: 0 <= i < j < |tracks| ==> tracks[i].num < tracks[j].num
  }

  lemma AppendGood(c: Config, s: seq<Track>, u: Track, next: nat)
    requires Good(c, s, next) && GoodTrack(c, u) && 1 <= u.num < next && forall t :: t in s ==> t.num < u.num
    ensures Good(c, s + [u], next)
  {
    hide GoodTrack;
    forall i, j | 0 <= i < j < |s + [u]| ensures (s + [u])[i].num < (s + [u])[j].num {
      if j == |s| {
        assert s[i] in s;
      }
    }
  }

  lemma {:induction false} SurvivorsAre(c: Config, tracks: seq<Track>, matched: seq<(Track, Detection)>, ts: int,
                                        n: nat, next: nat)
    requires n <= |tracks| && Good(c, tracks, next)
    ensures Good(c, Survivors(c, tracks, matched, ts, n), next)
    ensures forall t :: t in Survivors(c, tracks, matched, ts, n) ==> n > 0 && t.num <= tracks[n-1].num
  {
    hide Correct, MatchOf;
    if n > 0 {
      SurvivorsAre(c, tracks, matched, ts, n - 1, next);
      var t := tracks[n-1];
      assert t in tracks && GoodTrack(c, t) && (n > 1 ==> tracks[n-2].num < t.num);
      var s := Survivors(c, tracks, matched, ts, n - 1);
      var d := MatchOf(matched, t.num);
      hide Good;
      if d.Some? {
        AppendGood(c, s, Correct(c, t, d.value, ts), next);
      } else if Survives(c, t) {
        AppendGood(c, s, Coast(c, t), next);
      }
    }
  }

  /** A track keeps its number and class as long as it lives. */
  lemma {:induction false} SurvivorWas(c: Config, tracks: seq<Track>, matched: seq<(Track, Detection)>, ts: int,
                                       n: nat, t: Track)
    returns (was: Track)
    requires n <= |tracks| && t in Survivors(c, tracks, matched, ts, n)
    ensures was in tracks && was.num == t.num && was.class_ == t.class_
  {
    hide Correct, MatchOf;
    if t in Survivors(c, tracks, matched, ts, n - 1) {
      was := SurvivorWas(c, tracks, matched, ts, n - 1, t);
    } else {
      was := tracks[n-1];
    }
  }

  lemma {:induction false} NextGood(c: Config, tracks: seq<Track>, next: nat, dets: seq<Detection>, ts: int)
    requires Good(c, tracks, next) && next >= 1
    ensures Good(c, tracks + Starts(c, next, dets, ts, |dets|), next + |dets|)
  {
    var s := Starts(c, next, dets, ts, |dets|);
    var all := tracks + s;
    forall i, j | 0 <= i < j < |all| ensures all[i].num < all[j].num {
      if i < |tracks| {
        assert tracks[i] in tracks;
      }
    }
    forall t | t in all ensures GoodTrack(c, t) && 1 <= t.num < next + |dets| {
      if t in s {
        var i :| 0 <= i < |s| && s[i] == t;
      }
    }
  }

  lemma {:induction false} ReportedAre(c: Config, matched: seq<(Track, Detection)>, ts: int, n: nat)
    requires n <= |matched| && NumsDiffer(matched)
    ensures var out := Reported(c, matched, ts, n);
            && (forall i, j :: 0 <= i < j < |out| ==> out[i].num != out[j].num)
            && (forall o :: o in out ==>
                exists i :: 0 <= i < n && matched[i].0.num == o.num && matched[i].0.class_ == o.class_)
  {
    hide Correct;
    if n > 0 {
      ReportedAre(c, matched, ts, n - 1);
      assert forall i :: 0 <= i < n - 1 ==> matched[i].0.num != matched[n-1].0.num;
    }
  }

  // ---- the two stages -------------------------------------------------------------------------

  lemma {:induction false} KeepRises(tracks: seq<Track>, used: set<nat>)
    requires Rising(tracks)
    ensures Rising(Keep(tracks, used))
    ensures forall t :: t in Keep(tracks, used) ==> |tracks| > 0 && t.num <= tracks[|tracks|-1].num
  {
    if |tracks| > 0 {
      KeepRises(tracks[..|tracks|-1], used);
    }
  }

  lemma {:induction false} ConfirmedRises(tracks: seq<Track>)
    requires Rising(tracks)
    ensures Rising(ConfirmedOf(tracks))
    ensures forall t :: t in ConfirmedOf(tracks) ==> |tracks| > 0 && t.num <= tracks[|tracks|-1].num
  {
    if |tracks| > 0 {
      ConfirmedRises(tracks[..|tracks|-1]);
    }
  }

  lemma UnusedDiffers(tracks: seq<Track>, M: seq<Pair>, i: nat, t: Track)
    requires Rising(tracks) && i < |M| && M[i].t < |tracks| && t in Keep(tracks, TracksUsed(M))
    ensures tracks[M[i].t].num != t.num
  {
    hide Keep;
    var j :| 0 <= j < |tracks| && j !in TracksUsed(M) && tracks[j] == t;
    assert M[i] in M;
    assert tracks[j].num != tracks[M[i].t].num by {
      assert j != M[i].t;
    }
  }

  /** A pair of a stage is fair. */
  lemma PairFair(c: Config, tracks: seq<Track>, dets: seq<Detection>, ts: int, M: seq<Pair>, i: nat)
    requires Matching(c, tracks, dets, ts, M) && Within(M, tracks, dets, ts) && i < |M|
    ensures var t, d := tracks[M[i].t], dets[M[i].d];
            t in tracks && d in dets && t.class_ == d.class_ && Score(t, ts, d) >= c.matchIou
  {
    hide Candidates, Score, Ordered;
    assert M[i] in M;
  }

  lemma PairsDiffer(c: Config, tracks: seq<Track>, dets: seq<Detection>, ts: int, M: seq<Pair>, i: nat, j: nat)
    requires Rising(tracks) && Matching(c, tracks, dets, ts, M) && Within(M, tracks, dets, ts) && i < j < |M|
    ensures tracks[M[i].t].num != tracks[M[j].t].num
  {
    hide Candidates, Score, Ordered;
    assert !Conflict(M[i], M[j]);
  }

  /** The stages together match no track twice, and only fairly. */
  lemma {:induction false} StagesFair(c: Config, tracks: seq<Track>, dets: seq<Detection>, ts: int,
                                      high: seq<Detection>, left: seq<Track>, low: seq<Detection>, M: seq<Pair>,
                                      N: seq<Pair>)
    requires Rising(tracks)
    requires high == FilterHigh(dets, c.high) && low == Filter(dets, c.low, c.high)
    requires left == ConfirmedOf(Keep(tracks, TracksUsed(M)))
    requires Matching(c, tracks, high, ts, M) && Within(M, tracks, high, ts)
    requires Matching(c, left, low, ts, N) && Within(N, left, low, ts)
    ensures FairMatch(c, tracks, dets, ts, Joined(M, tracks, high, ts) + Joined(N, left, low, ts))
  {
    hide Matching, Score, TracksUsed, DetsUsed, Keep, ConfirmedOf, Filter, FilterHigh, Within, Joined, Rising;
    var A, B := Joined(M, tracks, high, ts), Joined(N, left, low, ts);
    var all := A + B;
    KeepRises(tracks, TracksUsed(M));
    ConfirmedRises(Keep(tracks, TracksUsed(M)));
    forall m: (Track, Detection) | m in all ensures FairPair(c, tracks, dets, ts, m.0, m.1) {
      if m in A {
        var i :| 0 <= i < |A| && A[i] == m;
        PairFair(c, tracks, high, ts, M, i);
      } else {
        var i :| 0 <= i < |B| && B[i] == m;
        PairFair(c, left, low, ts, N, i);
      }
    }
    hide *;
    AllDiffer(c, tracks, high, ts, left, low, M, N);
    IsFair(c, tracks, dets, ts, all);
  }

  lemma IsFair(c: Config, tracks: seq<Track>, dets: seq<Detection>, ts: int, all: seq<(Track, Detection)>)
    requires NumsDiffer(all)
    requires forall m: (Track, Detection) :: m in all ==> FairPair(c, tracks, dets, ts, m.0, m.1)
    ensures FairMatch(c, tracks, dets, ts, all)
  {
  }

  lemma {:induction false} AllDiffer(c: Config, tracks: seq<Track>, high: seq<Detection>, ts: int, left: seq<Track>,
                                     low: seq<Detection>, M: seq<Pair>, N: seq<Pair>)
    requires Rising(tracks) && Rising(left) && left == ConfirmedOf(Keep(tracks, TracksUsed(M)))
    requires Matching(c, tracks, high, ts, M) && Within(M, tracks, high, ts)
    requires Matching(c, left, low, ts, N) && Within(N, left, low, ts)
    ensures NumsDiffer(Joined(M, tracks, high, ts) + Joined(N, left, low, ts))
  {
    hide Matching, Score, TracksUsed, Keep, ConfirmedOf, Within, Joined, Rising;
    var A, B := Joined(M, tracks, high, ts), Joined(N, left, low, ts);
    var all := A + B;
    forall i, j | 0 <= i < j < |all| ensures all[i].0.num != all[j].0.num {
      if j < |A| {
        PairsDiffer(c, tracks, high, ts, M, i, j);
      } else if i >= |A| {
        PairsDiffer(c, left, low, ts, N, i - |A|, j - |A|);
      } else {
        PairFair(c, left, low, ts, N, j - |A|);
        InRange(M, tracks, high, ts, i);
        UnusedDiffers(tracks, M, i, all[j].0);
      }
    }
  }

  lemma InRange(M: seq<Pair>, tracks: seq<Track>, dets: seq<Detection>, ts: int, i: nat)
    requires Within(M, tracks, dets, ts) && i < |M|
    ensures M[i].t < |tracks| && M[i].d < |dets|
  {
  }

  /** The number and class of every track ever started are in `issued`. */
  ghost predicate Known(c: Config, tracks: seq<Track>, next: nat, issued: map<nat, nat>) {
    && next >= 1 && Good(c, tracks, next)
    && (forall n :: 1 <= n < next ==> n in issued)
    && (forall t :: t in tracks ==> t.num in issued && issued[t.num] == t.class_)
  }

  /** Reported ids are distinct, and name tracks of the reported class. */
  ghost predicate Honest(out: seq<Tracked>, next: nat, issued: map<nat, nat>) {
    && (forall i, j :: 0 <= i < j < |out| ==> out[i].num != out[j].num)
    && (forall o :: o in out ==> o.num < next && o.num in issued && issued[o.num] == o.class_)
  }

  /** Numbers once given keep their class. */
  ghost predicate Grown(before: map<nat, nat>, next: nat, after: map<nat, nat>) {
    forall n :: n in before && n < next ==> n in after && after[n] == before[n]
  }

  /** The two stages: high detections to all tracks, then low ones to the confirmed tracks left. */
  ghost predicate Staged(c: Config, tracks: seq<Track>, dets: seq<Detection>, ts: int, M: seq<Pair>, N: seq<Pair>,
                         matched: seq<(Track, Detection)>, starters: seq<Detection>)
  {
    var high, low := FilterHigh(dets, c.high), Filter(dets, c.low, c.high);
    var left := ConfirmedOf(Keep(tracks, TracksUsed(M)));
    && Matching(c, tracks, high, ts, M) && Within(M, tracks, high, ts)
    && Matching(c, left, low, ts, N) && Within(N, left, low, ts)
    && matched == Joined(M, tracks, high, ts) + Joined(N, left, low, ts)
    && starters == Keep(high, DetsUsed(M))
  }

  lemma {:induction false} FrameKnown(c: Config, tracks: seq<Track>, next: nat, issued: map<nat, nat>,
                                      dets: seq<Detection>,
                                      ts: int, matched: seq<(Track, Detection)>, starters: seq<Detection>)
    requires Known(c, tracks, next, issued) && FairMatch(c, tracks, dets, ts, matched)
    ensures var s := Survivors(c, tracks, matched, ts, |tracks|) + Starts(c, next, starters, ts, |starters|);
            var now := Issue(issued, next, starters);
            && Known(c, s, next + |starters|, now) && Grown(issued, next, now)
            && Honest(Reported(c, matched, ts, |matched|), next + |starters|, now)
  {
    hide Survivors, Starts, Reported, Issue, FairPair, GoodTrack;
    var survivors := Survivors(c, tracks, matched, ts, |tracks|);
    SurvivorsAre(c, tracks, matched, ts, |tracks|, next);
    NextGood(c, survivors, next, starters, ts);
    IssuedAll(c, tracks, matched, ts, survivors, Starts(c, next, starters, ts, |starters|), issued, next, starters);
    hide Good;
    ReportedAre(c, matched, ts, |matched|);
    ReportedKnown(c, tracks, dets, ts, matched, Reported(c, matched, ts, |matched|), issued, next);
  }

  /** The stages of one frame. */
  method Stages(c: Config, tracks: seq<Track>, dets: seq<Detection>, ts: int)
    returns (pairs: seq<(Track, Detection)>, rest: seq<Detection>, ghost M: seq<Pair>, ghost N: seq<Pair>)
    requires Rising(tracks)
    ensures Staged(c, tracks, dets, ts, M, N, pairs, rest) && FairMatch(c, tracks, dets, ts, pairs)
  {
    var high, low := FilterHigh(dets, c.high), Filter(dets, c.low, c.high);
    hide Matching, Score, TracksUsed, DetsUsed, Keep, ConfirmedOf, Filter, FilterHigh, Within, Joined, Rising;
    hide FairMatch;
    var m, left, m', left', rest';
    m, left, rest, M := Associate(c, high, tracks, ts);
    m', left', rest', N := Associate(c, low, ConfirmedOf(left), ts);
    pairs := m + m';
    StagesFair(c, tracks, dets, ts, high, ConfirmedOf(left), low, M, N);
  }

  /** One frame: what it reports, and the tracks it leaves. */
  method Step(c: Config, tracks: seq<Track>, next: nat, dets: seq<Detection>, ts: int, ghost issued: map<nat, nat>)
    returns (tracks': seq<Track>, next': nat, out: seq<Tracked>, ghost matched: seq<(Track, Detection)>,
             ghost starters: seq<Detection>, ghost M: seq<Pair>, ghost N: seq<Pair>, ghost issued': map<nat, nat>)
    requires Known(c, tracks, next, issued)
    ensures Known(c, tracks', next', issued') && Grown(issued, next, issued') && next <= next'
    ensures Staged(c, tracks, dets, ts, M, N, matched, starters) && FairMatch(c, tracks, dets, ts, matched)
    ensures tracks' == Survivors(c, tracks, matched, ts, |tracks|) + Starts(c, next, starters, ts, |starters|)
    ensures next' == next + |starters|
    ensures out == Reported(c, matched, ts, |matched|) && Honest(out, next', issued')
  {
    hide *;
    KnownRises(c, tracks, next, issued);
    var pairs, rest;
    pairs, rest, M, N := Stages(c, tracks, dets, ts);
    matched, starters := pairs, rest;
    FrameKnown(c, tracks, next, issued, dets, ts, pairs, rest);
    out := Report(c, pairs, ts);
    var survivors := Survive(c, tracks, pairs, ts);
    issued' := Issue(issued, next, rest);
    tracks' := survivors + Starts(c, next, rest, ts, |rest|);
    next' := next + |rest|;
  }

  // ---- the tracker ----------------------------------------------------------------------------

  class Tracker {
    const c: Config
    var tracks: seq<Track>
    var next: nat

    /** The class of every track ever started. */
    ghost var issued: map<nat, nat>

    ghost predicate Valid()
      reads this
    {
      Known(c, tracks, next, issued)
    }

    constructor (c: Config)
      ensures Valid() && this.c == c && tracks == [] && next == 1 && issued == map[]
    {
      this.c := c;
      tracks, next, issued := [], 1, map[];
    }

    /** Advances one frame and reports the confirmed tracks seen in it. */
    method Update(dets: seq<Detection>, ts: int)
      returns (out: seq<Tracked>, ghost matched: seq<(Track, Detection)>, ghost starters: seq<Detection>,
               ghost M: seq<Pair>, ghost N: seq<Pair>)
      requires Valid()
      modifies `tracks, `next, `issued
      ensures Valid() && Grown(old(issued), old(next), issued) && old(next) <= next
      ensures Staged(c, old(tracks), dets, ts, M, N, matched, starters) && FairMatch(c, old(tracks), dets, ts, matched)
      ensures tracks == Survivors(c, old(tracks), matched, ts, |old(tracks)|) +
        Starts(c, old(next), starters, ts, |starters|)
      ensures next == old(next) + |starters|
      ensures out == Reported(c, matched, ts, |matched|) && Honest(out, next, issued)
    {
      hide Known, Staged, Survivors, Starts, Reported, FairMatch, Grown, Honest;
      tracks, next, out, matched, starters, M, N, issued := Step(c, tracks, next, dets, ts, issued);
    }
  }

  lemma KnownRises(c: Config, tracks: seq<Track>, next: nat, issued: map<nat, nat>)
    requires Known(c, tracks, next, issued)
    ensures Rising(tracks)
  {
  }

  /** The numbers given to the starters, with their classes. */
  ghost function Issue(issued: map<nat, nat>, next: nat, dets: seq<Detection>): (now: map<nat, nat>)
    ensures forall n :: n in now <==> n in issued || next <= n < next + |dets|
    ensures forall n :: next <= n < next + |dets| ==> now[n] == dets[n - next].class_
    ensures forall n :: n in issued && n < next ==> now[n] == issued[n]
  {
    if |dets| == 0 then issued
    else Issue(issued, next, dets[..|dets|-1])[next + |dets| - 1 := dets[|dets|-1].class_]
  }

  lemma {:induction false} ReportedKnown(c: Config, tracks: seq<Track>, dets: seq<Detection>, ts: int,
                                         matched: seq<(Track, Detection)>, out: seq<Tracked>, issued: map<nat, nat>,
                                         next: nat)
    requires FairMatch(c, tracks, dets, ts, matched) && out == Reported(c, matched, ts, |matched|)
    requires Good(c, tracks, next)
    requires forall t :: t in tracks ==> t.num in issued && issued[t.num] == t.class_
    ensures forall o :: o in out ==> o.num in issued && o.num < next && issued[o.num] == o.class_
  {
    ReportedAre(c, matched, ts, |matched|);
    hide Reported, GoodTrack, Score;
    forall o | o in out ensures o.num in issued && o.num < next && issued[o.num] == o.class_ {
      var i :| 0 <= i < |matched| && matched[i].0.num == o.num && matched[i].0.class_ == o.class_;
      assert matched[i] in matched;
      assert FairPair(c, tracks, dets, ts, matched[i].0, matched[i].1);
    }
  }

  lemma {:induction false} IssuedAll(c: Config, tracks: seq<Track>, matched: seq<(Track, Detection)>, ts: int,
                                     survivors: seq<Track>,
                                     started: seq<Track>, issued: map<nat, nat>, next: nat, dets: seq<Detection>)
    requires survivors == Survivors(c, tracks, matched, ts, |tracks|) && started == Starts(c, next, dets, ts, |dets|)
    requires Good(c, tracks, next) && forall n :: 1 <= n < next ==> n in issued
    requires forall t :: t in tracks ==> t.num in issued && issued[t.num] == t.class_
    ensures var now := Issue(issued, next, dets);
            && (forall t :: t in survivors + started ==> t.num in now && now[t.num] == t.class_)
            && (forall n :: 1 <= n < next + |dets| ==> n in now)
            && (forall n :: n in issued && n < next ==> n in now && now[n] == issued[n])
  {
    hide Survivors, Starts, GoodTrack;
    var now := Issue(issued, next, dets);
    forall t | t in survivors + started ensures t.num in now && now[t.num] == t.class_ {
      if t in survivors {
        var w := SurvivorWas(c, tracks, matched, ts, |tracks|, t);
        assert w in tracks;
      } else {
        var i :| 0 <= i < |started| && started[i] == t;
      }
    }
  }

  method Report(c: Config, matched: seq<(Track, Detection)>, ts: int) returns (out: seq<Tracked>)
    ensures out == Reported(c, matched, ts, |matched|)
  {
    hide Correct;
    out := [];
    for n := 0 to |matched|
      invariant out == Reported(c, matched, ts, n)
    {
      var (t, d) := matched[n];
      var u := Correct(c, t, d, ts);
      if u.confirmed {
        out := out + [Tracked(u.num, u.class_, d.confidence, d.box)];
      }
    }
  }

  method Survive(c: Config, tracks: seq<Track>, matched: seq<(Track, Detection)>, ts: int) returns (s: seq<Track>)
    ensures s == Survivors(c, tracks, matched, ts, |tracks|)
  {
    hide Correct, MatchOf;
    s := [];
    for n := 0 to |tracks|
      invariant s == Survivors(c, tracks, matched, ts, n)
    {
      var d := MatchOf(matched, tracks[n].num);
      if d.Some? {
        s := s + [Correct(c, tracks[n], d.value, ts)];
      } else if Survives(c, tracks[n]) {
        s := s + [Coast(c, tracks[n])];
      }
    }
  }

  // ---- what a frame can and cannot do ---------------------------------------------------------

  /** The matching of a stage is decided by the scores alone. */
  lemma {:induction false} MatchingUnique(c: Config, tracks: seq<Track>, dets: seq<Detection>, ts: int, M: seq<Pair>,
                                          N: seq<Pair>)
    requires Matching(c, tracks, dets, ts, M) && Matching(c, tracks, dets, ts, N)
    ensures forall p :: p in M <==> p in N
  {
    CandidatesAre(tracks, dets, |tracks|, ts);
    hide Candidates, Score;
    StableUnique(Candidates(tracks, dets, |tracks|, ts), c.matchIou, M, N);
  }

  /** A new track starts from a high-confidence detection, and a number once dropped never returns:
      the tracks with numbers given before are tracks that were alive. */
  lemma {:induction false} NoneReturns(c: Config, tracks: seq<Track>, next: nat, dets: seq<Detection>, ts: int,
                                       M: seq<Pair>,
                                       N: seq<Pair>, matched: seq<(Track, Detection)>, starters: seq<Detection>,
                                       t: Track)
    requires Good(c, tracks, next) && Staged(c, tracks, dets, ts, M, N, matched, starters)
    requires t in Survivors(c, tracks, matched, ts, |tracks|) + Starts(c, next, starters, ts, |starters|)
    ensures t.num < next <==> exists was :: was in tracks && was.num == t.num
    ensures t.num >= next ==> exists d :: d in dets && d.confidence >= c.high && t == New(c, t.num, d, ts)
  {
    hide Survivors, Starts, New, Matching, Within, Joined, Filter, ConfirmedOf;
    var started := Starts(c, next, starters, ts, |starters|);
    if t in Survivors(c, tracks, matched, ts, |tracks|) {
      var was := SurvivorWas(c, tracks, matched, ts, |tracks|, t);
      assert was in tracks;
    } else {
      var i :| 0 <= i < |started| && started[i] == t;
      StartNum(c, next + i, starters[i], ts);
      assert starters[i] in starters;
    }
  }

  lemma StartNum(c: Config, num: nat, d: Detection, ts: int)
    ensures New(c, num, d, ts).num == num
  {
  }

  // ---- whole runs -----------------------------------------------------------------------------

  datatype Frame = Frame(dets: seq<Detection>, ts: int)

  /** Over any run: in each frame the reported ids are distinct, and one id always names an object
      of one class. */
  method Run(c: Config, frames: seq<Frame>) returns (reports: seq<seq<Tracked>>, ghost issued: map<nat, nat>)
    ensures |reports| == |frames|
    ensures forall f :: 0 <= f < |reports| ==> forall i, j :: 0 <= i < j < |reports[f]| ==>
      reports[f][i].num != reports[f][j].num
    ensures forall f, o :: 0 <= f < |reports| && o in reports[f] ==> o.num in issued && issued[o.num] == o.class_
  {
    var tracker := new Tracker(c);
    reports := [];
    hide Known, Honest, Grown, Staged, Survivors, Starts, Reported, FairMatch;
    for f := 0 to |frames|
      invariant fresh(tracker) && tracker.Valid() && tracker.c == c && |reports| == f
      invariant forall g :: 0 <= g < f ==> Honest(reports[g], tracker.next, tracker.issued)
    {
      ghost var before, next := tracker.issued, tracker.next;
      var out, matched, starters, M, N := tracker.Update(frames[f].dets, frames[f].ts);
      forall g | 0 <= g < f ensures Honest(reports[g], tracker.next, tracker.issued) {
        HonestStill(reports[g], next, before, tracker.next, tracker.issued);
      }
      reports := reports + [out];
    }
    issued := tracker.issued;
    HonestAll(reports, tracker.next, issued);
  }

  lemma HonestStill(out: seq<Tracked>, next: nat, before: map<nat, nat>, later: nat, after: map<nat, nat>)
    requires Honest(out, next, before) && Grown(before, next, after) && next <= later
    ensures Honest(out, later, after)
  {
  }

  lemma HonestAll(reports: seq<seq<Tracked>>, next: nat, issued: map<nat, nat>)
    requires forall g :: 0 <= g < |reports| ==> Honest(reports[g], next, issued)
    ensures forall f :: 0 <= f < |reports| ==> forall i, j :: 0 <= i < j < |reports[f]| ==>
      reports[f][i].num != reports[f][j].num
    ensures forall f, o :: 0 <= f < |reports| && o in reports[f] ==> o.num in issued && issued[o.num] == o.class_
  {
  }
}

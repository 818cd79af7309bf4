/** How well a track and a detection overlap, what a detection makes of a track, and which object
    therefore keeps its id. */
module Boxes {
  import opened Wrappers
  import opened Association
  import opened Tracking

  // ---- boxes ----------------------------------------------------------------------------------

  predicate Proper(b: Box) {
    b.x1 < b.x2 && b.y1 < b.y2
  }

  /** Box `c` lies within box `b`. */
  predicate Within(c: Box, b: Box) {
    b.x1 <= c.x1 && c.x2 <= b.x2 && b.y1 <= c.y1 && c.y2 <= b.y2
  }

  function Area(b: Box): real {
    (b.x2 - b.x1) * (b.y2 - b.y1)
  }

  /** Box `c` is what `a` and `b` have in common: it lies in both, and so does no other that is not in it. */
  ghost predicate Common(a: Box, b: Box, c: Box) {
    Proper(c) && Within(c, a) && Within(c, b) && forall d :: Proper(d) && Within(d, a) && Within(d, b) ==> Within(d, c)
  }

  ghost predicate Apart(a: Box, b: Box) {
    !exists c :: Proper(c) && Within(c, a) && Within(c, b)
  }

  function Meet(a: Box, b: Box): Box {
    Box(Max(a.x1, b.x1), Max(a.y1, b.y1), Min(a.x2, b.x2), Min(a.y2, b.y2))
  }

  lemma MeetIs(a: Box, b: Box)
    ensures forall d :: Within(d, a) && Within(d, b) <==> Within(d, Meet(a, b))
    ensures Proper(Meet(a, b)) <==> !Apart(a, b)
  {
    var c := Meet(a, b);
    assert Within(c, c) && Within(c, a) && Within(c, b);
  }

  lemma CommonIsMeet(a: Box, b: Box, c: Box)
    requires Common(a, b, c)
    ensures c == Meet(a, b)
  {
    MeetIs(a, b);
    assert Within(c, Meet(a, b)) && Proper(Meet(a, b)) && Within(Meet(a, b), c);
  }

  /** The sides of what a box has in common with another are no longer than its own. */
  lemma Smaller(c: Box, b: Box)
    requires Proper(c) && Within(c, b)
    ensures 0.0 < Area(c) <= Area(b) && (Area(c) == Area(b) ==> c == b)
  {
    Product(c.x2 - c.x1, c.y2 - c.y1, b.x2 - b.x1, b.y2 - b.y1);
  }

  lemma Product(w: real, h: real, W: real, H: real)
    requires 0.0 < w <= W && 0.0 < h <= H
    ensures 0.0 < w * h <= W * H && (w * h == W * H ==> w == W && h == H)
  {
    assert w * h <= W * h <= W * H;
    if w * h == W * H {
      assert (W - w) * h == 0.0 && W * (H - h) == 0.0;
    }
  }

  lemma Ratio(x: real, u: real)
    requires 0.0 < x <= u
    ensures x / u * u == x && 0.0 < x / u <= 1.0 && (x / u == 1.0 <==> x == u)
  {
    assert x / u * u == x && (1.0 - x / u) * u == u - x;
  }

  /** The overlap of two boxes is the area they have in common, over that they cover; none if they are apart. */
  lemma IouIs(a: Box, b: Box)
    ensures Apart(a, b) ==> Iou(a, b) == 0.0
    ensures forall c :: Common(a, b, c) ==> Iou(a, b) * (Area(a) + Area(b) - Area(c)) == Area(c)
    ensures 0.0 <= Iou(a, b) <= 1.0 && (Iou(a, b) > 0.0 <==> !Apart(a, b))
    ensures Iou(a, b) == 1.0 <==> a == b && Proper(a)
  {
    var c := Meet(a, b);
    MeetIs(a, b);
    forall d | Common(a, b, d) ensures d == c {
      CommonIsMeet(a, b, d);
    }
    hide Common, Apart;
    if Proper(c) {
      assert Within(c, c);
      Smaller(c, a);
      Smaller(c, b);
      IouRatio(a, b);
    } else {
      IouNone(a, b);
    }
  }

  lemma IouRatio(a: Box, b: Box)
    requires Proper(Meet(a, b)) && var c := Meet(a, b); Area(c) <= Area(a) && 0.0 < Area(c) <= Area(b)
    ensures var c := Meet(a, b); var union := Area(a) + Area(b) - Area(c);
            && Iou(a, b) * union == Area(c) && 0.0 < Iou(a, b) <= 1.0 && (Iou(a, b) == 1.0 <==> Area(c) == union)
  {
    var c := Meet(a, b);
    IouOf(a, b);
    hide *;
    Ratio(Area(c), Area(a) + Area(b) - Area(c));
  }

  lemma IouOf(a: Box, b: Box)
    requires Proper(Meet(a, b)) && var c := Meet(a, b); Area(c) <= Area(a) && 0.0 < Area(c) <= Area(b)
    ensures var c := Meet(a, b); Iou(a, b) == Area(c) / (Area(a) + Area(b) - Area(c))
  {
  }

  lemma IouNone(a: Box, b: Box)
    requires !Proper(Meet(a, b))
    ensures Iou(a, b) == 0.0 && (Proper(a) ==> a != b)
  {
  }

  // ---- prediction and correction --------------------------------------------------------------

  function Mid(a: real, b: real): real {
    (a + b) / 2.0
  }

  function Seconds(t: Track, ts: int): real {
    (ts - t.ts) as real / 1_000_000.0
  }

  /** A track is predicted with its size, and its centre moved by its velocity for the time passed. */
  lemma PredictedIs(t: Track, ts: int)
    ensures var b := Predicted(t, ts);
            && b.x2 - b.x1 == t.w && Mid(b.x1, b.x2) == t.cx + t.vx * Seconds(t, ts)
            && b.y2 - b.y1 == t.h && Mid(b.y1, b.y2) == t.cy + t.vy * Seconds(t, ts)
  {
  }

  /** A track just started stands still: it is predicted, at any time, where it was detected. */
  lemma NewStands(c: Config, num: nat, d: Detection, ts: int, later: int)
    ensures var t := New(c, num, d, ts);
            && Predicted(t, later) == d.box == t.last && t.num == num && t.class_ == d.class_ && t.ts == ts
            && t.hits == 1 && t.missed == 0 && (t.confirmed <==> c.minHits <= 1)
  {
  }

  ghost predicate Between(x: real, a: real, b: real) {
    a <= x <= b || b <= x <= a
  }

  lemma Portion(a: real, x: real)
    requires 0.0 <= a <= 1.0 && 0.0 <= x
    ensures 0.0 <= a * x <= x
  {
    assert (1.0 - a) * x == x - a * x;
  }

  lemma Weighs(a: real, p: real, m: real, x: real)
    requires 0.0 <= a <= 1.0 && x - p == a * (m - p)
    ensures Between(x, p, m)
  {
    var up, down := m - p, p - m;
    assert x - p == a * up && p - x == a * down;
    if p <= m {
      Portion(a, up);
    } else {
      Portion(a, down);
    }
  }

  /** On one axis: from `p`, predicted, and `m`, measured, the centre `x` is `alpha` of the way, and the velocity
      changes from `v` to `w` by `beta` of what the prediction missed in the time `s`. */
  ghost predicate Corrected(c: Config, p: real, m: real, x: real, v: real, w: real, s: real) {
    && Between(x, p, m) && x - p == c.alpha * (m - p)
    && (if s > 0.0 then (w - v) * s == c.beta * (m - p) else w == v)
  }

  lemma Quotient(x: real, s: real)
    requires s != 0.0
    ensures x / s * s == x
  {
  }

  /** The velocity `v` when a prediction for the time `s` later missed by `miss`. */
  function Pulled(c: Config, v: real, miss: real, s: real): real {
    if s > 0.0 then v + c.beta * miss / s else v
  }

  lemma Corrects(c: Config, p: real, m: real, x: real, v: real, w: real, s: real)
    requires 0.0 <= c.alpha <= 1.0 && x - p == c.alpha * (m - p) && w == Pulled(c, v, m - p, s)
    ensures Corrected(c, p, m, x, v, w, s)
  {
    Weighs(c.alpha, p, m, x);
    if s > 0.0 {
      Quotient(c.beta * (m - p), s);
    }
  }

  lemma CorrectAcross(c: Config, t: Track, d: Detection, ts: int, px: real)
    requires px == t.cx + t.vx * Seconds(t, ts)
    ensures var u, s, m := Correct(c, t, d, ts), Seconds(t, ts), Mid(d.box.x1, d.box.x2);
            u.cx - px == c.alpha * (m - px) && u.w == d.box.x2 - d.box.x1 && u.vx == Pulled(c, t.vx, m - px, s)
  {
  }

  lemma CorrectDown(c: Config, t: Track, d: Detection, ts: int, py: real)
    requires py == t.cy + t.vy * Seconds(t, ts)
    ensures var u, s, m := Correct(c, t, d, ts), Seconds(t, ts), Mid(d.box.y1, d.box.y2);
            u.cy - py == c.alpha * (m - py) && u.h == d.box.y2 - d.box.y1 && u.vy == Pulled(c, t.vy, m - py, s)
  {
  }

  /** On both axes; the size is the detection's. */
  ghost predicate CorrectedBy(c: Config, t: Track, d: Detection, s: real, px: real, py: real, u: Track) {
    && Corrected(c, px, Mid(d.box.x1, d.box.x2), u.cx, t.vx, u.vx, s)
    && Corrected(c, py, Mid(d.box.y1, d.box.y2), u.cy, t.vy, u.vy, s)
    && u.w == d.box.x2 - d.box.x1 && u.h == d.box.y2 - d.box.y1
  }

  lemma CorrectsBoth(c: Config, t: Track, d: Detection, ts: int, px: real, py: real)
    requires 0.0 <= c.alpha <= 1.0 && px == t.cx + t.vx * Seconds(t, ts) && py == t.cy + t.vy * Seconds(t, ts)
    ensures CorrectedBy(c, t, d, Seconds(t, ts), px, py, Correct(c, t, d, ts))
  {
    CorrectAcross(c, t, d, ts, px);
    CorrectDown(c, t, d, ts, py);
    hide Correct, Mid, Seconds, Corrected, Pulled;
    var u, s := Correct(c, t, d, ts), Seconds(t, ts);
    Corrects(c, px, Mid(d.box.x1, d.box.x2), u.cx, t.vx, u.vx, s);
    Corrects(c, py, Mid(d.box.y1, d.box.y2), u.cy, t.vy, u.vy, s);
  }

  /** A corrected track: from where it was predicted to be, part of the way to where it was detected. */
  lemma CorrectIs(c: Config, t: Track, d: Detection, ts: int)
    requires 0.0 <= c.alpha <= 1.0
    ensures var b := Predicted(t, ts);
            CorrectedBy(c, t, d, Seconds(t, ts), Mid(b.x1, b.x2), Mid(b.y1, b.y2), Correct(c, t, d, ts))
  {
    hide *;
    PredictedIs(t, ts);
    var b := Predicted(t, ts);
    CorrectsBoth(c, t, d, ts, Mid(b.x1, b.x2), Mid(b.y1, b.y2));
  }

  // ---- scores ---------------------------------------------------------------------------------

  /** A pair scores what the better of the two boxes does. */
  lemma ScoreIs(t: Track, ts: int, d: Detection, q: real)
    ensures Score(t, ts, d) >= q <==> Iou(Predicted(t, ts), d.box) >= q || Iou(t.last, d.box) >= q
    ensures 0.0 <= Score(t, ts, d) <= 1.0
    ensures Score(t, ts, d) == 1.0 <==> Proper(d.box) && (d.box == t.last || d.box == Predicted(t, ts))
    ensures Score(t, ts, d) == 0.0 <==> Apart(t.last, d.box) && Apart(Predicted(t, ts), d.box)
  {
    IouIs(t.last, d.box);
    IouIs(Predicted(t, ts), d.box);
    hide Iou, Predicted, Apart, Common, Area, Proper;
  }

  // ---- who keeps an id ------------------------------------------------------------------------

  /** A pair that scores enough is matched, unless a matched one that shares its track or detection scores more,
      or as much and comes first. */
  lemma BestFirst(c: Config, tracks: seq<Track>, dets: seq<Detection>, ts: int, M: seq<Pair>, i: nat, j: nat)
    returns (m: Pair)
    requires Matching(c, tracks, dets, ts, M) && i < |tracks| && j < |dets| && tracks[i].class_ == dets[j].class_
    requires Score(tracks[i], ts, dets[j]) >= c.matchIou
    ensures m in M && (m.t == i || m.d == j) && IsCandidate(tracks, dets, ts, m)
    ensures m.score > Score(tracks[i], ts, dets[j])
         || (m.score == Score(tracks[i], ts, dets[j]) && (m.t < i || (m.t == i && m.d <= j)))
  {
    var p := Pair(Score(tracks[i], ts, dets[j]), i, j);
    CandidatesAre(tracks, dets, |tracks|, ts);
    hide Score, Candidates, Distinct, Ordered;
    assert p in Candidates(tracks, dets, |tracks|, ts);
    assert Taken(M, p);
    m :| m in M && Conflict(m, p) && (m == p || Before(m, p));
  }

  /** The detection is where the track was last seen, or where it is predicted. */
  predicate Fits(t: Track, ts: int, d: Detection) {
    t.class_ == d.class_ && (d.box == t.last || d.box == Predicted(t, ts))
  }

  /** No other of the tracks and no other of the detections fits so well. */
  ghost predicate Unrivalled(tracks: seq<Track>, dets: seq<Detection>, ts: int, t: Track, d: Detection) {
    && (forall u :: u in tracks && Fits(u, ts, d) ==> u == t)
    && (forall e :: e in dets && Fits(t, ts, e) ==> e == d)
  }

  /** Then a stage matches the two. */
  lemma StageKeeps(c: Config, tracks: seq<Track>, dets: seq<Detection>, ts: int, M: seq<Pair>, t: Track, d: Detection)
    requires Matching(c, tracks, dets, ts, M) && Tracking.Within(M, tracks, dets, ts) && c.matchIou <= 1.0
    requires t in tracks && d in dets && Proper(d.box) && Fits(t, ts, d) && Unrivalled(tracks, dets, ts, t, d)
    ensures (t, d) in Joined(M, tracks, dets, ts)
  {
    var i :| 0 <= i < |tracks| && tracks[i] == t;
    var j :| 0 <= j < |dets| && dets[j] == d;
    hide Matching, Score, Proper, Predicted, Joined;
    ScoreIs(t, ts, d, 1.0);
    var m := BestFirst(c, tracks, dets, ts, M, i, j);
    ScoreIs(tracks[m.t], ts, dets[m.d], 1.0);
    assert Fits(tracks[m.t], ts, dets[m.d]);
    var k :| 0 <= k < |M| && M[k] == m;
    assert Joined(M, tracks, dets, ts)[k] == (t, d);
  }

  lemma NumNames(matched: seq<(Track, Detection)>, i: nat, j: nat)
    requires NumsDiffer(matched) && i < |matched| && j < |matched| && matched[i].0.num == matched[j].0.num
    ensures i == j
  {
  }

  lemma MatchOfPair(matched: seq<(Track, Detection)>, t: Track, d: Detection)
    requires NumsDiffer(matched) && (t, d) in matched
    ensures MatchOf(matched, t.num) == Some(d)
  {
    hide MatchOf;
    var i :| 0 <= i < |matched| && matched[i] == (t, d);
    var e := MatchOf(matched, t.num);
    assert e.Some?;
    var m :| m in matched && m.0.num == t.num && m.1 == e.value;
    var j :| 0 <= j < |matched| && matched[j] == m;
    NumNames(matched, i, j);
  }

  lemma {:induction false} SurvivesMatched(c: Config, tracks: seq<Track>, matched: seq<(Track, Detection)>, ts: int,
                                           n: nat, i: nat, d: Detection)
    requires i < n <= |tracks| && MatchOf(matched, tracks[i].num) == Some(d)
    ensures Correct(c, tracks[i], d, ts) in Survivors(c, tracks, matched, ts, n)
  {
    hide Correct, MatchOf;
    if i < n - 1 {
      SurvivesMatched(c, tracks, matched, ts, n - 1, i, d);
    }
  }

  lemma {:induction false} ReportsMatched(c: Config, matched: seq<(Track, Detection)>, ts: int, n: nat, i: nat)
    requires i < n <= |matched| && Correct(c, matched[i].0, matched[i].1, ts).confirmed
    ensures var (t, d) := matched[i]; Tracked(t.num, t.class_, d.confidence, d.box) in Reported(c, matched, ts, n)
  {
    hide Correct;
    if i < n - 1 {
      ReportsMatched(c, matched, ts, n - 1, i);
    }
  }

  /** The track goes on from the detection, and is reported there under its id once it has hits enough. */
  ghost predicate KeepsId(c: Config, tracks: seq<Track>, ts: int, matched: seq<(Track, Detection)>, t: Track,
                          d: Detection) {
    && (t, d) in matched
    && (exists u :: u in Survivors(c, tracks, matched, ts, |tracks|) && u.num == t.num && u.last == d.box && u.ts == ts)
    && (t.confirmed || t.hits + 1 >= c.minHits ==>
        Tracked(t.num, t.class_, d.confidence, d.box) in Reported(c, matched, ts, |matched|))
  }

  lemma MatchedKeeps(c: Config, tracks: seq<Track>, ts: int, matched: seq<(Track, Detection)>, t: Track, d: Detection)
    requires NumsDiffer(matched) && t in tracks && (t, d) in matched
    ensures KeepsId(c, tracks, ts, matched, t, d)
  {
    MatchOfPair(matched, t, d);
    hide MatchOf, Survivors, Reported, NumsDiffer;
    var i :| 0 <= i < |tracks| && tracks[i] == t;
    var j :| 0 <= j < |matched| && matched[j] == (t, d);
    SurvivesMatched(c, tracks, matched, ts, |tracks|, i, d);
    var u := Correct(c, t, d, ts);
    if u.confirmed {
      ReportsMatched(c, matched, ts, |matched|, j);
    }
  }

  /** A confident detection that is just where a track was last seen, or where it is predicted, keeps the track's
      id, whatever its velocity, unless another track or another confident detection is just there too. */
  lemma StillKeepsId(c: Config, tracks: seq<Track>, dets: seq<Detection>, ts: int, M: seq<Pair>, N: seq<Pair>,
                     matched: seq<(Track, Detection)>, starters: seq<Detection>, t: Track, d: Detection)
    requires Staged(c, tracks, dets, ts, M, N, matched, starters) && FairMatch(c, tracks, dets, ts, matched)
    requires c.matchIou <= 1.0 && t in tracks && d in dets && d.confidence >= c.high && Proper(d.box) && Fits(t, ts, d)
    requires forall u :: u in tracks && Fits(u, ts, d) ==> u == t
    requires forall e :: e in dets && e.confidence >= c.high && Fits(t, ts, e) ==> e == d
    ensures KeepsId(c, tracks, ts, matched, t, d)
  {
    hide Matching, Tracking.Within, Joined, Predicted, Proper, Keep, ConfirmedOf, FilterHigh, Filter, FairPair, Fits;
    StageKeeps(c, tracks, FilterHigh(dets, c.high), ts, M, t, d);
    MatchedKeeps(c, tracks, ts, matched, t, d);
  }

  /** The first stage leaves a track that overlaps no confident detection of its class enough. */
  lemma LeftOver(c: Config, tracks: seq<Track>, dets: seq<Detection>, ts: int, M: seq<Pair>, t: Track)
    requires Matching(c, tracks, dets, ts, M) && Tracking.Within(M, tracks, dets, ts) && t in tracks && t.confirmed
    requires forall e :: e in dets && e.class_ == t.class_ ==> Score(t, ts, e) < c.matchIou
    ensures t in ConfirmedOf(Keep(tracks, TracksUsed(M)))
  {
    var i :| 0 <= i < |tracks| && tracks[i] == t;
    hide Candidates, Score, Ordered, Keep, ConfirmedOf;
    forall m | m in M ensures m.t != i {
      var k :| 0 <= k < |M| && M[k] == m;
      PairFair(c, tracks, dets, ts, M, k);
    }
  }

  /** So does a faint detection, of a confirmed track that overlaps no confident one enough, unless another
      confirmed track or another faint detection is just there too. */
  lemma FaintKeepsId(c: Config, tracks: seq<Track>, dets: seq<Detection>, ts: int, M: seq<Pair>, N: seq<Pair>,
                     matched: seq<(Track, Detection)>, starters: seq<Detection>, t: Track, d: Detection)
    requires Staged(c, tracks, dets, ts, M, N, matched, starters) && FairMatch(c, tracks, dets, ts, matched)
    requires c.matchIou <= 1.0 && t in tracks && t.confirmed && d in dets && c.low <= d.confidence < c.high
    requires Proper(d.box) && Fits(t, ts, d)
    requires forall e :: e in dets && e.confidence >= c.high && e.class_ == t.class_ ==> Score(t, ts, e) < c.matchIou
    requires forall u :: u in tracks && u.confirmed && Fits(u, ts, d) ==> u == t
    requires forall e :: e in dets && c.low <= e.confidence < c.high && Fits(t, ts, e) ==> e == d
    ensures KeepsId(c, tracks, ts, matched, t, d)
  {
    hide Matching, Tracking.Within, Joined, Predicted, Proper, Keep, ConfirmedOf, FilterHigh, Filter, FairPair, Fits,
      Score;
    LeftOver(c, tracks, FilterHigh(dets, c.high), ts, M, t);
    var left := ConfirmedOf(Keep(tracks, TracksUsed(M)));
    forall u | u in left ensures u in tracks && u.confirmed {
    }
    StageKeeps(c, left, Filter(dets, c.low, c.high), ts, N, t, d);
    MatchedKeeps(c, tracks, ts, matched, t, d);
  }

  /** Reported are the matched tracks that had been confirmed, or are by this hit, each with its detection. */
  lemma {:induction false} ReportedExactly(c: Config, matched: seq<(Track, Detection)>, ts: int, n: nat, o: Tracked)
    requires n <= |matched|
    ensures o in Reported(c, matched, ts, n) <==>
      exists i :: 0 <= i < n && ReportOf(c, matched[i].0, matched[i].1, o)
  {
    hide Correct;
    if n > 0 {
      ReportedExactly(c, matched, ts, n - 1, o);
    }
  }

  predicate ReportOf(c: Config, t: Track, d: Detection, o: Tracked) {
    (t.confirmed || t.hits + 1 >= c.minHits) && o == Tracked(t.num, t.class_, d.confidence, d.box)
  }

  // ---- who lives on ---------------------------------------------------------------------------

  ghost predicate IsMatched(matched: seq<(Track, Detection)>, num: nat) {
    exists m :: m in matched && m.0.num == num
  }

  lemma {:induction false} SurvivorBefore(c: Config, tracks: seq<Track>, matched: seq<(Track, Detection)>, ts: int,
                                          n: nat, u: Track)
    returns (i: nat)
    requires n <= |tracks| && u in Survivors(c, tracks, matched, ts, n)
    ensures i < n && tracks[i].num == u.num
  {
    hide MatchOf;
    if u in Survivors(c, tracks, matched, ts, n - 1) {
      i := SurvivorBefore(c, tracks, matched, ts, n - 1, u);
    } else {
      i := n - 1;
    }
  }

  lemma {:induction false} Unmatched(c: Config, tracks: seq<Track>, matched: seq<(Track, Detection)>, ts: int, n: nat,
                                     i: nat)
    requires Rising(tracks) && i < n <= |tracks| && MatchOf(matched, tracks[i].num).None?
    ensures var s, t := Survivors(c, tracks, matched, ts, n), tracks[i];
            if Survives(c, t) then Coast(c, t) in s else forall u :: u in s ==> u.num != t.num
  {
    hide MatchOf, Correct, Survives;
    if i < n - 1 {
      Unmatched(c, tracks, matched, ts, n - 1, i);
      assert tracks[i].num < tracks[n-1].num;
    } else {
      forall u | u in Survivors(c, tracks, matched, ts, n - 1) ensures u.num != tracks[i].num {
        var k := SurvivorBefore(c, tracks, matched, ts, n - 1, u);
      }
    }
  }

  /** A track that was not matched lives on exactly when it is confirmed and has missed fewer frames than it may;
      it stays where it was, with its last box, and slower, and has missed one frame more. */
  lemma CoastsExactly(c: Config, tracks: seq<Track>, matched: seq<(Track, Detection)>, ts: int, t: Track)
    requires Rising(tracks) && t in tracks && !IsMatched(matched, t.num)
    ensures var s := Survivors(c, tracks, matched, ts, |tracks|);
            && ((exists u :: u in s && u.num == t.num) <==> t.confirmed && t.missed < c.maxMissed)
            && (t.confirmed && t.missed < c.maxMissed ==>
                t.(missed := t.missed + 1, vx := t.vx * c.decay, vy := t.vy * c.decay) in s)
  {
    var i :| 0 <= i < |tracks| && tracks[i] == t;
    hide Survivors, MatchOf;
    Unmatched(c, tracks, matched, ts, |tracks|, i);
    var s := Survivors(c, tracks, matched, ts, |tracks|);
    if Survives(c, t) {
      var u := Coast(c, t);
      assert u in s && u.num == t.num;
      assert t.(missed := t.missed + 1, vx := t.vx * c.decay, vy := t.vy * c.decay) == u;
    }
  }
}

/** The stops of a load visit and the wait they tell of, said of its fixes alone; the loops that find
    them compute just that. */
module Queueing {
  import opened Wrappers
  import opened Track
  import opened Cycles

  // ---- what the stops of a visit are ----------------------------------------------------------

  /** At a fix the truck drives: it is no slower than the threshold, without a speed as at 0. */
  predicate Drives(p: Params, f: Fix): (d: bool)
    ensures d == Moving(p, f)
  {
    if f.speed.None? then p.moveKph <= 0.0 else f.speed.value >= p.moveKph
  }

  /** How many of the fixes [a, b) are stationary. */
  function Stills(p: Params, V: seq<Fix>, a: nat, b: nat): (n: nat)
    requires a <= b <= |V|
    ensures a < b && !Drives(p, V[a]) ==> n >= 1
  {
    if a == b then 0 else Stills(p, V, a, b - 1) + (if Drives(p, V[b-1]) then 0 else 1)
  }

  function StillLat(p: Params, V: seq<Fix>, a: nat, b: nat): real
    requires a <= b <= |V|
  {
    if a == b then 0.0 else StillLat(p, V, a, b - 1) + (if Drives(p, V[b-1]) then 0.0 else V[b-1].lat)
  }

  function StillLon(p: Params, V: seq<Fix>, a: nat, b: nat): real
    requires a <= b <= |V|
  {
    if a == b then 0.0 else StillLon(p, V, a, b - 1) + (if Drives(p, V[b-1]) then 0.0 else V[b-1].lon)
  }

  /** The mean of the stationary ones among the fixes [a, b). */
  function Place(p: Params, V: seq<Fix>, a: nat, b: nat): Point
    requires a < b <= |V| && !Drives(p, V[a])
  {
    var n := Stills(p, V, a, b) as real;
    Point(StillLat(p, V, a, b) / n, StillLon(p, V, a, b) / n)
  }

  /** The truck comes to stand at fix `a`. */
  predicate Halts(p: Params, V: seq<Fix>, a: nat) {
    a < |V| && !Drives(p, V[a]) && (a > 0 ==> Drives(p, V[a-1]))
  }

  /** It stands last at the fix before `b`, and then moves or leaves. */
  predicate MovesOff(p: Params, V: seq<Fix>, b: nat) {
    0 < b <= |V| && !Drives(p, V[b-1]) && (b < |V| ==> Drives(p, V[b]))
  }

  /** The fixes [a, b) are a longest run of stationary ones. */
  ghost predicate Run(p: Params, V: seq<Fix>, a: nat, b: nat) {
    a < b && Halts(p, V, a) && MovesOff(p, V, b) && forall j :: a <= j < b ==> !Drives(p, V[j])
  }

  predicate Near(p: Params, a: Point, b: Point) {
    p.dist(a, b) < 5.0
  }

  /** A stop begins and ends as runs do, and is at the mean of its stationary fixes. */
  ghost predicate Spell(p: Params, V: seq<Fix>, s: Stop) {
    && s.start < s.end <= |V| && Halts(p, V, s.start) && MovesOff(p, V, s.end)
    && s.n == Stills(p, V, s.start, s.end) && s.at == Place(p, V, s.start, s.end)
  }

  /** Each run in stop `m` but the first is within a step of where the stop had been till then, and the
      first is not of where the stop before was. */
  ghost predicate Merged(p: Params, V: seq<Fix>, stops: seq<Stop>, m: nat)
    requires m < |stops| && Spell(p, V, stops[m])
  {
    forall a: nat, b: nat :: Run(p, V, a, b) && stops[m].start <= a < stops[m].end ==>
      if a > stops[m].start then Near(p, Place(p, V, stops[m].start, a), Place(p, V, a, b))
      else m > 0 ==> !Near(p, stops[m-1].at, Place(p, V, a, b))
  }

  ghost predicate InStop(stops: seq<Stop>, j: int) {
    exists m :: 0 <= m < |stops| && stops[m].start <= j < stops[m].end
  }

  /** The stops of a visit's first `i` fixes: in order and apart, every stationary fix in one of them, and
      runs merged as `Merged` says. */
  ghost predicate StopsTo(p: Params, V: seq<Fix>, stops: seq<Stop>, i: nat)
    requires i <= |V|
  {
    && (forall m :: 0 <= m < |stops| ==> Spell(p, V, stops[m]) && Merged(p, V, stops, m))
    && (forall l, m :: 0 <= l < m < |stops| ==> stops[l].end < stops[m].start)
    && (forall j :: 0 <= j < i && !Drives(p, V[j]) ==> InStop(stops, j))
    && (forall m :: 0 <= m < |stops| ==> stops[m].end <= i)
  }

  ghost predicate AreStops(p: Params, V: seq<Fix>, stops: seq<Stop>) {
    StopsTo(p, V, stops, |V|)
  }

  // ---- places ---------------------------------------------------------------------------------

  lemma {:induction false} Parts(p: Params, V: seq<Fix>, a: nat, m: nat, b: nat)
    requires a <= m <= b <= |V|
    ensures Stills(p, V, a, b) == Stills(p, V, a, m) + Stills(p, V, m, b)
    ensures StillLat(p, V, a, b) == StillLat(p, V, a, m) + StillLat(p, V, m, b)
    ensures StillLon(p, V, a, b) == StillLon(p, V, a, m) + StillLon(p, V, m, b)
    decreases b
  {
    hide Moving, Drives;
    if m < b {
      Parts(p, V, a, m, b - 1);
    }
  }

  lemma {:induction false} Driving(p: Params, V: seq<Fix>, a: nat, b: nat)
    requires a <= b <= |V| && forall j :: a <= j < b ==> Drives(p, V[j])
    ensures Stills(p, V, a, b) == 0 && StillLat(p, V, a, b) == 0.0 && StillLon(p, V, a, b) == 0.0
  {
    hide Moving, Drives;
    if a < b {
      Driving(p, V, a, b - 1);
    }
  }

  lemma {:induction false} Standing(p: Params, V: seq<Fix>, a: nat, b: nat)
    requires a <= b <= |V| && forall j :: a <= j < b ==> !Drives(p, V[j])
    ensures Stills(p, V, a, b) == b - a && StillLat(p, V, a, b) == SumLat(V, a, b) &&
      StillLon(p, V, a, b) == SumLon(V, a, b)
  {
    hide Moving, Drives;
    if a < b {
      Standing(p, V, a, b - 1);
    }
  }

  /** A run is where its centroid is. */
  lemma RunPlace(p: Params, V: seq<Fix>, a: nat, b: nat)
    requires Run(p, V, a, b)
    ensures Place(p, V, a, b) == Centroid(V, a, b)
  {
    hide Moving, Drives;
    Standing(p, V, a, b);
  }

  /** Driving on does not change where the truck stood. */
  lemma PlaceStays(p: Params, V: seq<Fix>, s: nat, e: nat, a: nat)
    requires s < e <= a <= |V| && !Drives(p, V[s]) && forall j :: e <= j < a ==> Drives(p, V[j])
    ensures Place(p, V, s, a) == Place(p, V, s, e) && Stills(p, V, s, a) == Stills(p, V, s, e)
  {
    hide Moving, Drives;
    Parts(p, V, s, e, a);
    Driving(p, V, e, a);
  }

  lemma Shared(x: real, n: nat, y: real, m: nat)
    requires n > 0 && m > 0
    ensures Weighted(x / n as real, n, y / m as real, m) == (x + y) / (n + m) as real
  {
    assert x / n as real * n as real == x && y / m as real * m as real == y;
  }

  /** The mean of two parts, weighted by how many fixes each has, is the mean of the whole. */
  lemma PlaceOfParts(p: Params, V: seq<Fix>, s: nat, a: nat, b: nat)
    requires s < a < b <= |V| && !Drives(p, V[s]) && !Drives(p, V[a])
    ensures var n, m := Stills(p, V, s, a), Stills(p, V, a, b); var x, y := Place(p, V, s, a), Place(p, V, a, b);
            && n + m == Stills(p, V, s, b)
            && Place(p, V, s, b) == Point(Weighted(x.lat, n, y.lat, m), Weighted(x.lon, n, y.lon, m))
  {
    hide Moving, Drives, Weighted, Stills, StillLat, StillLon;
    Parts(p, V, s, a, b);
    var n, m := Stills(p, V, s, a), Stills(p, V, a, b);
    Shared(StillLat(p, V, s, a), n, StillLat(p, V, a, b), m);
    Shared(StillLon(p, V, s, a), n, StillLon(p, V, a, b), m);
  }

  // ---- the program's fold finds them ----------------------------------------------------------

  lemma RunFound(p: Params, V: seq<Fix>, i: nat, a: nat, b: nat)
    requires i <= a < |V| && a == NextMoving(p, V, i, false) && b == NextMoving(p, V, a + 1, true)
    requires i == 0 || MovesOff(p, V, i)
    ensures Run(p, V, a, b) && forall j :: i <= j < a ==> Drives(p, V[j])
  {
    hide Moving, Drives;
  }

  lemma RunsMeet(p: Params, V: seq<Fix>, a: nat, b: nat, x: nat, y: nat)
    requires Run(p, V, a, b) && Run(p, V, x, y) && a <= x < b
    ensures x == a && y == b
  {
    hide Moving, Drives;
  }

  lemma MergedSame(p: Params, V: seq<Fix>, stops: seq<Stop>, other: seq<Stop>, m: nat)
    requires m < |stops| && m < |other| && Spell(p, V, stops[m]) && Merged(p, V, stops, m)
    requires stops[m] == other[m] && (m > 0 ==> stops[m-1].at == other[m-1].at)
    ensures Merged(p, V, other, m)
  {
    hide Spell, Run, Place;
  }

  predicate Lengthens(s: Stop, c: Point, a: nat, b: nat, t: Stop)
    requires a < b
  {
    && t.start == s.start && t.end == b && t.n == s.n + (b - a)
    && t.at == Point(Weighted(s.at.lat, s.n, c.lat, b - a), Weighted(s.at.lon, s.n, c.lon, b - a))
  }

  /** The last stop with one more run, a step or less from it. */
  lemma Lengthened(p: Params, V: seq<Fix>, out: seq<Stop>, a: nat, b: nat, t: Stop)
    requires |out| > 0 && Spell(p, V, out[|out|-1]) && Merged(p, V, out, |out| - 1) && Run(p, V, a, b)
    requires out[|out|-1].end < a && forall j :: out[|out|-1].end <= j < a ==> Drives(p, V[j])
    requires Near(p, out[|out|-1].at, Centroid(V, a, b)) && Lengthens(out[|out|-1], Centroid(V, a, b), a, b, t)
    ensures Spell(p, V, t) && Merged(p, V, out[..|out|-1] + [t], |out| - 1)
  {
    var s := out[|out|-1];
    hide Moving, Drives, Near, Weighted, Centroid, Stills, StillLat, StillLon;
    PlaceStays(p, V, s.start, s.end, a);
    RunPlace(p, V, a, b);
    Standing(p, V, a, b);
    PlaceOfParts(p, V, s.start, a, b);
    var r := out[..|out|-1] + [t];
    forall x: nat, y: nat | Run(p, V, x, y) && t.start <= x < b
      ensures if x > t.start then Near(p, Place(p, V, t.start, x), Place(p, V, x, y))
              else |out| > 1 ==> !Near(p, r[|out|-2].at, Place(p, V, x, y))
    {
      if x >= a {
        RunsMeet(p, V, a, b, x, y);
      } else {
        assert x < s.end;
      }
    }
  }

  /** A stop of its own, more than a step from the last. */
  lemma Begun(p: Params, V: seq<Fix>, out: seq<Stop>, a: nat, b: nat, t: Stop)
    requires Run(p, V, a, b) && t == Stop(a, b, b - a, Centroid(V, a, b))
    requires |out| > 0 ==> !Near(p, out[|out|-1].at, Centroid(V, a, b))
    ensures Spell(p, V, t) && Merged(p, V, out + [t], |out|)
  {
    hide Moving, Drives, Near, Centroid, Stills, StillLat, StillLon;
    RunPlace(p, V, a, b);
    Standing(p, V, a, b);
    forall x: nat, y: nat | Run(p, V, x, y) && a <= x < b ensures x == a && y == b {
      RunsMeet(p, V, a, b, x, y);
    }
  }

  /** With its last stop made so, the list is that of the stops up to `b`. */
  lemma Extended(p: Params, V: seq<Fix>, out: seq<Stop>, i: nat, a: nat, b: nat, n: nat, t: Stop)
    requires i <= a < b <= |V| && StopsTo(p, V, out, i) && n <= |out|
    requires Spell(p, V, t) && Merged(p, V, out[..n] + [t], n) && t.end == b
    requires if n == |out| then t.start == a && (n > 0 ==> out[n-1].end < a)
             else n == |out| - 1 && t.start == out[n].start
    requires forall j :: i <= j < a ==> Drives(p, V[j])
    ensures StopsTo(p, V, out[..n] + [t], b)
  {
    hide Moving, Drives, Merged, Place, Stills, Halts, MovesOff;
    var r := out[..n] + [t];
    forall m | 0 <= m < |r| ensures Spell(p, V, r[m]) && Merged(p, V, r, m) && r[m].end <= b {
      if m < n {
        assert Spell(p, V, out[m]) && Merged(p, V, out, m);
        MergedSame(p, V, out, r, m);
      }
    }
    forall j | 0 <= j < b && !Drives(p, V[j]) ensures InStop(r, j) {
      if j < i {
        assert InStop(out, j);
        StaysIn(p, V, out, r, n, b, j);
      } else {
        assert r[n].start <= j < r[n].end;
      }
    }
  }

  lemma StaysIn(p: Params, V: seq<Fix>, out: seq<Stop>, r: seq<Stop>, n: nat, b: nat, j: int)
    requires InStop(out, j) && j < b && |r| == n + 1 && n <= |out| && r[..n] == out[..n] && r[n].end == b
    requires n < |out| ==> n == |out| - 1 && r[n].start == out[n].start
    ensures InStop(r, j)
  {
    var m :| 0 <= m < |out| && out[m].start <= j < out[m].end;
    if m < n {
      assert r[..n][m] == out[..n][m];
    }
    assert r[m].start <= j < r[m].end;
  }

  lemma AddRunStops(p: Params, V: seq<Fix>, out: seq<Stop>, i: nat, a: nat, b: nat)
    requires i <= |V| && StopsTo(p, V, out, i) && Run(p, V, a, b) && i <= a
    requires forall j :: i <= j < a ==> Drives(p, V[j])
    requires if |out| == 0 then i == 0 else out[|out|-1].end == i < a
    ensures var r := AddRun(p, V, out, a, b); StopsTo(p, V, r, b) && |r| > 0 && r[|r|-1].end == b
  {
    var r := AddRun(p, V, out, a, b);
    var n := |r| - 1;
    hide Centroid, Weighted, Moving, Drives, Place, Stills, Run, InStop, Merged, Spell;
    if |out| > 0 && Near(p, out[|out|-1].at, Centroid(V, a, b)) {
      assert Merged(p, V, out, |out| - 1);
      Lengthened(p, V, out, a, b, r[n]);
      assert r == out[..n] + [r[n]];
    } else {
      Begun(p, V, out, a, b, r[n]);
      assert out[..n] == out;
    }
    RunEnd(p, V, a, b);
    hide *;
    Extended(p, V, out, i, a, b, n, r[n]);
  }

  lemma RunEnd(p: Params, V: seq<Fix>, a: nat, b: nat)
    requires Run(p, V, a, b)
    ensures a < b <= |V|
  {
  }

  lemma {:induction false} FoundStops(p: Params, V: seq<Fix>, i: nat, out: seq<Stop>)
    requires i <= |V| && StopsTo(p, V, out, i)
    requires if |out| == 0 then i == 0 else out[|out|-1].end == i && MovesOff(p, V, i)
    ensures AreStops(p, V, StopsFrom(p, V, i, out))
    decreases |V| - i
  {
    hide AddRun, StopsTo, Moving, Drives, Run, MovesOff;
    var a := NextMoving(p, V, i, false);
    if a == |V| {
      RestMoves(p, V, i, out);
    } else {
      var b := NextMoving(p, V, a + 1, true);
      RunFound(p, V, i, a, b);
      MovesOn(p, V, i, a, b);
      AddRunStops(p, V, out, i, a, b);
      FoundStops(p, V, b, AddRun(p, V, out, a, b));
    }
  }

  lemma RestMoves(p: Params, V: seq<Fix>, i: nat, out: seq<Stop>)
    requires i <= |V| && StopsTo(p, V, out, i) && forall j :: i <= j < |V| ==> Drives(p, V[j])
    ensures AreStops(p, V, out)
  {
    hide Moving, Drives, Spell, Merged, InStop;
  }

  lemma MovesOn(p: Params, V: seq<Fix>, i: nat, a: nat, b: nat)
    requires i <= a && Run(p, V, a, b)
    ensures MovesOff(p, V, b) && a < b <= |V| && (MovesOff(p, V, i) ==> i < a)
  {
    hide Moving, Drives;
  }

  lemma StopsAre(p: Params, V: seq<Fix>)
    ensures AreStops(p, V, StopsFrom(p, V, 0, []))
  {
    FoundStops(p, V, 0, []);
  }

  // ---- and there are no others ----------------------------------------------------------------

  /** The stop a stationary fix lies in. */
  lemma StopOf(p: Params, V: seq<Fix>, s: seq<Stop>, j: nat) returns (l: nat)
    requires AreStops(p, V, s) && j < |V| && !Drives(p, V[j])
    ensures l < |s| && s[l].start <= j < s[l].end
  {
    hide Moving, Drives, Spell, Merged;
    assert InStop(s, j);
    l :| 0 <= l < |s| && s[l].start <= j < s[l].end;
  }

  lemma InOrder(p: Params, V: seq<Fix>, s: seq<Stop>, l: nat, m: nat)
    requires AreStops(p, V, s) && l < |s| && m < |s|
    ensures s[l].start < s[l].end <= |V| && !Drives(p, V[s[l].start]) && MovesOff(p, V, s[l].end)
    ensures l < m ==> s[l].end < s[m].start < s[m].end
  {
    hide Moving, Drives, Merged, Place, Stills, InStop, MovesOff;
    assert Spell(p, V, s[l]) && Spell(p, V, s[m]);
  }

  lemma LaterStop(p: Params, V: seq<Fix>, s: seq<Stop>, m: nat, l: nat)
    requires AreStops(p, V, s) && l < |s| && m < |s| && s[m].end < s[l].end
    ensures m < l
  {
    InOrder(p, V, s, l, m);
    hide *;
  }

  lemma EarlierStop(p: Params, V: seq<Fix>, s: seq<Stop>, l: nat, m: nat)
    requires AreStops(p, V, s) && l < |s| && m < |s| && s[l].start < s[m].start
    ensures l < m
  {
    InOrder(p, V, s, m, l);
    hide *;
  }

  lemma StartsBy(p: Params, V: seq<Fix>, s: seq<Stop>, t: seq<Stop>, m: nat)
    requires AreStops(p, V, s) && AreStops(p, V, t) && m < |s|
    requires m <= |t| && s[..m] == t[..m]
    ensures m < |t| && t[m].start <= s[m].start
  {
    hide *;
    InOrder(p, V, s, m, m);
    var l := StopOf(p, V, t, s[m].start);
    if m > 0 {
      assert s[m-1] == s[..m][m-1] == t[..m][m-1] == t[m-1];
      InOrder(p, V, s, m - 1, m);
      LaterStop(p, V, t, m - 1, l);
    }
    if m < l {
      InOrder(p, V, t, m, l);
    }
  }

  /** The truck drives from one stop to the next. */
  lemma NextHalt(p: Params, V: seq<Fix>, s: seq<Stop>, m: nat, j: nat)
    requires AreStops(p, V, s) && m < |s| && s[m].end <= j < |V| && !Drives(p, V[j])
    ensures m + 1 < |s| && s[m+1].start <= j
  {
    hide *;
    var l := StopOf(p, V, s, j);
    LaterStop(p, V, s, m, l);
    if m + 1 < l {
      InOrder(p, V, s, m + 1, l);
    }
  }

  lemma DrivesBetween(p: Params, V: seq<Fix>, s: seq<Stop>, m: nat)
    requires AreStops(p, V, s) && m + 1 < |s|
    ensures s[m].end < s[m+1].start < |V| && forall j :: s[m].end <= j < s[m+1].start ==> Drives(p, V[j])
  {
    hide *;
    InOrder(p, V, s, m, m + 1);
    InOrder(p, V, s, m + 1, m + 1);
    forall j | s[m].end <= j < s[m+1].start ensures Drives(p, V[j]) {
      if !Drives(p, V[j]) {
        NextHalt(p, V, s, m, j);
      }
    }
  }

  /** The next run is not near where the truck stood; nor would it be, were it of the same stop. */
  lemma NextApart(p: Params, V: seq<Fix>, s: seq<Stop>, m: nat, b: nat)
    requires AreStops(p, V, s) && m + 1 < |s| && Run(p, V, s[m+1].start, b)
    ensures !Near(p, s[m].at, Place(p, V, s[m+1].start, b))
  {
    hide Moving, Drives, Place, Stills, StillLat, StillLon, Near, InStop, Run;
    assert Spell(p, V, s[m+1]) && Merged(p, V, s, m + 1);
  }

  lemma OwnNear(p: Params, V: seq<Fix>, t: seq<Stop>, m: nat, a: nat, b: nat)
    requires AreStops(p, V, t) && m < |t| && Run(p, V, a, b) && t[m].start < a < t[m].end
    ensures t[m].start < a <= |V| && !Drives(p, V[t[m].start]) && Near(p, Place(p, V, t[m].start, a), Place(p, V, a, b))
  {
    hide Moving, Drives, Place, Stills, StillLat, StillLon, Near, InStop, Run;
    assert Spell(p, V, t[m]) && Merged(p, V, t, m);
  }

  lemma StopIs(p: Params, V: seq<Fix>, s: seq<Stop>, m: nat)
    requires AreStops(p, V, s) && m < |s|
    ensures Spell(p, V, s[m])
  {
    hide Spell, Merged, InStop, Moving, Drives;
  }

  lemma RunFrom(p: Params, V: seq<Fix>, s: Stop) returns (b: nat)
    requires Spell(p, V, s)
    ensures Run(p, V, s.start, b)
  {
    hide Moving, Drives, Place, Stills;
    b := NextMoving(p, V, s.start + 1, true);
  }

  /** A stop cannot end before another of the same start: the run that follows would be near, and not. */
  lemma NoShorter(p: Params, V: seq<Fix>, s: seq<Stop>, t: seq<Stop>, m: nat)
    requires AreStops(p, V, s) && AreStops(p, V, t) && m < |s| && m < |t| && s[m].start == t[m].start
    ensures s[m].end >= t[m].end
  {
    hide *;
    InOrder(p, V, s, m, m);
    InOrder(p, V, t, m, m);
    if s[m].end < t[m].end {
      LastStands(p, V, s[m].end, t[m].end);
      NextHalt(p, V, s, m, t[m].end - 1);
      DrivesBetween(p, V, s, m);
      StopIs(p, V, s, m);
      StopIs(p, V, s, m + 1);
      var b := RunFrom(p, V, s[m+1]);
      PlaceIs(p, V, s[m], s[m+1].start);
      OwnNear(p, V, t, m, s[m+1].start, b);
      NextApart(p, V, s, m, b);
    }
  }

  lemma LastStands(p: Params, V: seq<Fix>, e: nat, b: nat)
    requires MovesOff(p, V, e) && MovesOff(p, V, b) && e < b
    ensures e < b - 1 && !Drives(p, V[b-1])
  {
    hide Moving, Drives;
  }

  lemma PlaceIs(p: Params, V: seq<Fix>, s: Stop, a: nat)
    requires Spell(p, V, s) && s.end <= a <= |V| && forall j :: s.end <= j < a ==> Drives(p, V[j])
    ensures s.start < a && !Drives(p, V[s.start]) && Place(p, V, s.start, a) == s.at
  {
    hide Moving, Drives, Place, Stills;
    PlaceStays(p, V, s.start, s.end, a);
  }

  lemma SameAt(p: Params, V: seq<Fix>, s: seq<Stop>, t: seq<Stop>, m: nat)
    requires AreStops(p, V, s) && AreStops(p, V, t) && m < |s| && m <= |t| && s[..m] == t[..m]
    ensures m < |t| && s[m] == t[m]
  {
    StartsBy(p, V, s, t, m);
    StartsBy(p, V, t, s, m);
    NoShorter(p, V, s, t, m);
    NoShorter(p, V, t, s, m);
    hide Moving, Drives, Place, Stills, Merged, InStop;
    assert Spell(p, V, s[m]) && Spell(p, V, t[m]);
  }

  /** A visit has one list of stops. */
  lemma {:induction false} StopsUnique(p: Params, V: seq<Fix>, s: seq<Stop>, t: seq<Stop>)
    requires AreStops(p, V, s) && AreStops(p, V, t)
    ensures s == t
  {
    hide *;
    SamePrefix(p, V, s, t, |s|);
    SamePrefix(p, V, t, s, |t|);
    assert s[..|s|] == s && t[..|t|] == t;
  }

  lemma {:induction false} SamePrefix(p: Params, V: seq<Fix>, s: seq<Stop>, t: seq<Stop>, m: nat)
    requires AreStops(p, V, s) && AreStops(p, V, t) && m <= |s|
    ensures m <= |t| && s[..m] == t[..m]
  {
    hide *;
    if m > 0 {
      SamePrefix(p, V, s, t, m - 1);
      SameAt(p, V, s, t, m - 1);
      assert s[..m] == s[..m-1] + [s[m-1]] && t[..m] == t[..m-1] + [t[m-1]];
    }
  }

  // ---- the wait -------------------------------------------------------------------------------

  /** A stop from which the truck moved off, or left the visit, 30 s or more after it halted. */
  predicate CanLoad(V: seq<Fix>, exit: int, s: Stop)
    requires s.start < s.end <= |V|
  {
    (if s.end == |V| then exit else V[s.end].ts) >= V[s.start].ts + 30_000_000
  }

  /** The truck loads at stop `l`: the last at which it can, or, if there is none, the last of all. */
  ghost predicate LoadsAt(p: Params, V: seq<Fix>, exit: int, stops: seq<Stop>, l: nat)
    requires AreStops(p, V, stops)
  {
    && l < |stops| && (CanLoad(V, exit, stops[l]) || l == |stops| - 1)
    && forall m :: l < m < |stops| ==> !CanLoad(V, exit, stops[m])
  }

  predicate FirstHalt(p: Params, V: seq<Fix>, f: nat) {
    f < |V| && !Drives(p, V[f]) && forall j :: 0 <= j < f ==> Drives(p, V[j])
  }

  /** From the first stationary fix of all to fix `e`, at which the truck moves off to where it loads, with
      no stationary fix on the way there. */
  ghost predicate WaitsUntil(p: Params, V: seq<Fix>, stops: seq<Stop>, l: nat, e: nat, q: int)
    requires AreStops(p, V, stops) && 0 < l < |stops|
  {
    && stops[l-1].end == e < stops[l].start < |V| && MovesOff(p, V, e)
    && (forall j :: e <= j < stops[l].start ==> Drives(p, V[j]))
    && exists f: nat :: FirstHalt(p, V, f) && V[f].ts + q == V[e].ts
  }

  /** How long a truck waits that loads at stop `l`: not at all if it is its first stop. */
  ghost predicate WaitsFor(p: Params, V: seq<Fix>, stops: seq<Stop>, l: nat, q: int)
    requires AreStops(p, V, stops) && l < |stops|
  {
    if l == 0 then q == 0 else exists e: nat :: WaitsUntil(p, V, stops, l, e, q)
  }

  /** How long it waits in the visit. */
  ghost predicate Waits(p: Params, V: seq<Fix>, exit: int, stops: seq<Stop>, q: int)
    requires AreStops(p, V, stops)
  {
    if |stops| == 0 then q == 0
    else exists l: nat :: LoadsAt(p, V, exit, stops, l) && WaitsFor(p, V, stops, l, q)
  }

  lemma FirstStop(p: Params, V: seq<Fix>, s: seq<Stop>)
    requires AreStops(p, V, s) && |s| > 0
    ensures FirstHalt(p, V, s[0].start)
  {
    hide Moving, Drives, AreStops;
    InOrder(p, V, s, 0, 0);
    forall j | 0 <= j < s[0].start ensures Drives(p, V[j]) {
      if !Drives(p, V[j]) {
        var l := StopOf(p, V, s, j);
        EarlierStop(p, V, s, l, 0);
      }
    }
  }

  lemma WaitsFrom(p: Params, V: seq<Fix>, s: seq<Stop>, l: nat, q: int)
    requires AreStops(p, V, s) && 0 < l < |s| && s[l-1].end < |V|
    requires q == V[s[l-1].end].ts - V[s[0].start].ts
    ensures WaitsFor(p, V, s, l, q)
  {
    hide Moving, Drives, AreStops, FirstHalt, MovesOff;
    FirstStop(p, V, s);
    DrivesBetween(p, V, s, l - 1);
    InOrder(p, V, s, l - 1, l);
    assert WaitsUntil(p, V, s, l, s[l-1].end, q);
  }

  /** The stop taken for the loading is the one it is. */
  lemma LoadingIs(p: Params, V: seq<Fix>, exit: int, s: seq<Stop>)
    requires AreStops(p, V, s) && |s| > 0
    requires forall m :: 0 <= m < |s| ==> s[m].start < s[m].end <= |V|
    ensures LoadsAt(p, V, exit, s, LoadingStop(V, exit, s))
  {
    hide AreStops;
  }

  function LoadingStop(V: seq<Fix>, exit: int, s: seq<Stop>): nat
    requires |s| > 0 && forall m :: 0 <= m < |s| ==> s[m].start < s[m].end <= |V|
  {
    var r := LastLoading(V, exit, s, |s|);
    if r.Some? then r.value else |s| - 1
  }

  lemma QueueParts(p: Params, V: seq<Fix>, exit: int, s: seq<Stop>)
    requires s == StopsFrom(p, V, 0, [])
    ensures forall m :: 0 <= m < |s| ==> s[m].start < s[m].end <= |V|
    ensures |s| == 0 ==> Queue(p, V, exit) == 0
    ensures |s| > 0 ==>
      var l := LoadingStop(V, exit, s);
      && l < |s| && (l == 0 ==> Queue(p, V, exit) == 0)
      && (l > 0 ==> s[l-1].end < |V| && Queue(p, V, exit) == V[s[l-1].end].ts - V[s[0].start].ts)
  {
    StopsOf(p, V);
    hide StopsFrom, Moving, Drives;
  }

  /** What the program takes for the wait is it. */
  lemma QueueIs(p: Params, V: seq<Fix>, exit: int, s: seq<Stop>)
    requires AreStops(p, V, s)
    ensures Waits(p, V, exit, s, Queue(p, V, exit))
  {
    hide *;
    StopsAre(p, V);
    StopsUnique(p, V, s, StopsFrom(p, V, 0, []));
    QueueParts(p, V, exit, s);
    if |s| > 0 {
      LoadingIs(p, V, exit, s);
      var l := LoadingStop(V, exit, s);
      if l > 0 {
        WaitsFrom(p, V, s, l, Queue(p, V, exit));
      }
      WaitsAt(p, V, exit, s, l, Queue(p, V, exit));
    } else {
      WaitsNone(p, V, exit, s);
    }
  }

  lemma WaitsAt(p: Params, V: seq<Fix>, exit: int, s: seq<Stop>, l: nat, q: int)
    requires AreStops(p, V, s) && LoadsAt(p, V, exit, s, l) && l < |s|
    requires if l == 0 then q == 0 else WaitsFor(p, V, s, l, q)
    ensures Waits(p, V, exit, s, q)
  {
    hide AreStops, LoadsAt, WaitsUntil;
  }

  lemma WaitsNone(p: Params, V: seq<Fix>, exit: int, s: seq<Stop>)
    requires AreStops(p, V, s) && |s| == 0
    ensures Waits(p, V, exit, s, 0)
  {
    hide AreStops;
  }

  // ---- the loops ------------------------------------------------------------------------------

  /** A run of stationary fixes [a, b), with a moving fix or the end after it, makes one step. */
  lemma StopsStep(p: Params, V: seq<Fix>, out: seq<Stop>, a: nat, b: nat)
    requires a < b <= |V| && !Moving(p, V[a])
    requires NextMoving(p, V, a + 1, true) == b
    ensures StopsFrom(p, V, a, out) == StopsFrom(p, V, b, AddRun(p, V, out, a, b))
  {
  }

  /** The loop of the program over a visit's fixes. */
  method Stops(p: Params, V: seq<Fix>) returns (out: seq<Stop>)
    ensures out == StopsFrom(p, V, 0, []) && StopsOrdered(p, V, out)
    ensures AreStops(p, V, out)
  {
    hide AddRun, StopsOrdered, Moving, AreStops;
    StopsOf(p, V);
    StopsAre(p, V);
    out := [];
    var i := 0;
    while i < |V|
      invariant 0 <= i <= |V|
      invariant StopsFrom(p, V, i, out) == StopsFrom(p, V, 0, [])
    {
      if Moving(p, V[i]) {
        i := i + 1;
        continue;
      }
      var start := i;
      i := Still(p, V, start);
      StopsStep(p, V, out, start, i);
      out := AddRun(p, V, out, start, i);
    }
  }

  /** The inner loop: past the stationary fixes from `start` on. */
  method Still(p: Params, V: seq<Fix>, start: nat) returns (i: nat)
    requires start < |V| && !Moving(p, V[start])
    ensures start < i <= |V| && i == NextMoving(p, V, start + 1, true)
  {
    i := start + 1;
    while i < |V| && !Moving(p, V[i])
      invariant start < i <= |V|
      invariant NextMoving(p, V, i, true) == NextMoving(p, V, start + 1, true)
    {
      i := i + 1;
    }
  }

  lemma AllWait(p: Params, V: seq<Fix>, exit: int)
    ensures forall stops :: AreStops(p, V, stops) ==> Waits(p, V, exit, stops, Queue(p, V, exit))
  {
    hide *;
    forall stops | AreStops(p, V, stops) ensures Waits(p, V, exit, stops, Queue(p, V, exit)) {
      QueueIs(p, V, exit, stops);
    }
  }

  method QueueSeconds(p: Params, V: seq<Fix>, exit: int) returns (q: int)
    ensures q == Queue(p, V, exit)
    ensures forall stops :: AreStops(p, V, stops) ==> Waits(p, V, exit, stops, q)
  {
    hide Queue, StopsFrom, StopsOrdered, Moving, AreStops, Waits, StopLength;
    var stops := Stops(p, V);
    QueueParts(p, V, exit, stops);
    AllWait(p, V, exit);
    if |stops| == 0 {
      return 0;
    }
    var loading := |stops| - 1;
    var k := |stops|;
    while k > 0
      invariant 0 <= k <= |stops|
      invariant LastLoading(V, exit, stops, k) == LastLoading(V, exit, stops, |stops|)
      invariant loading == |stops| - 1
    {
      k := k - 1;
      if StopLength(V, exit, stops[k]) >= MIN_LOAD {
        loading := k;
        break;
      }
    }
    assert loading == LoadingStop(V, exit, stops);
    q := if loading == 0 then 0 else V[stops[loading-1].end].ts - V[stops[0].start].ts;
  }
}

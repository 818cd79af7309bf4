/** Whether a point lies in a zone, by ray casting over the ring of a GeoJSON polygon, in exact
    arithmetic.

    The answer does not depend on where the ring starts, on which way it goes round, or on whether
    it repeats its first vertex (section 3.1.6 of RFC 7946 asks for that); and no point outside the
    ring's bounding box is ever found inside. */
module Geometry {
  datatype Vertex = Vertex(x: real, y: real)

  type Ring = seq<Vertex>

  /** The horizontal line at the point's height runs between the edge's ends. */
  predicate Straddles(p: Vertex, a: Vertex, b: Vertex) {
    (a.y > p.y) != (b.y > p.y)
  }

  function CrossingX(p: Vertex, a: Vertex, b: Vertex): real
    requires Straddles(p, a, b)
  {
    a.x + (p.y - a.y) / (b.y - a.y) * (b.x - a.x)
  }

  /** The ray from the point to the right crosses the edge. */
  predicate Crosses(p: Vertex, a: Vertex, b: Vertex) {
    Straddles(p, a, b) && p.x < CrossingX(p, a, b)
  }

  function One(c: bool): nat {
    if c then 1 else 0
  }

  /** How many edges the ray crosses along a path of vertices. */
  function Path(p: Vertex, s: Ring): nat {
    if |s| < 2 then 0 else Path(p, s[..|s|-1]) + One(Crosses(p, s[|s|-1], s[|s|-2]))
  }

  /** ... and round the whole ring. */
  function Round(p: Vertex, ring: Ring): nat {
    if |ring| == 0 then 0 else Path(p, ring) + One(Crosses(p, ring[0], ring[|ring|-1]))
  }

  predicate Inside(p: Vertex, ring: Ring) {
    Round(p, ring) % 2 == 1
  }

  method PointInPolygon(p: Vertex, ring: Ring) returns (inside: bool)
    ensures inside == Inside(p, ring)
  {
    inside := false;
    var j := |ring| - 1;
    hide Crosses;
    for i := 0 to |ring|
      invariant -1 <= j < |ring| && j == (if i == 0 then |ring| - 1 else i - 1)
      invariant inside ==
                ((if i == 0 then 0 else Path(p, ring[..i]) + One(Crosses(p, ring[0], ring[|ring|-1]))) % 2 == 1)
    {
      if i > 0 {
        assert ring[..i+1][..i] == ring[..i];
      }
      if Crosses(p, ring[i], ring[j]) {
        inside := !inside;
      }
      j := i;
    }
    assert ring[..|ring|] == ring;
  }

  // ---- paths ----------------------------------------------------------------------------------

  lemma PathMore(p: Vertex, s: Ring, v: Vertex)
    requires |s| > 0
    ensures Path(p, s + [v]) == Path(p, s) + One(Crosses(p, v, s[|s|-1]))
  {
    assert (s + [v])[..|s|] == s;
  }

  lemma {:induction false} PathBefore(p: Vertex, v: Vertex, s: Ring)
    requires |s| > 0
    ensures Path(p, [v] + s) == One(Crosses(p, s[0], v)) + Path(p, s)
  {
    hide Crosses;
    if |s| == 1 {
      PathMore(p, [v], s[0]);
      assert [v] + s == [v] + [s[0]];
    } else {
      PathBefore(p, v, s[..|s|-1]);
      PathMore(p, [v] + s[..|s|-1], s[|s|-1]);
      assert [v] + s[..|s|-1] + [s[|s|-1]] == [v] + s;
    }
  }

  /** An edge is crossed the same whichever way it is walked. */
  lemma CrossesBothWays(p: Vertex, a: Vertex, b: Vertex)
    ensures Crosses(p, a, b) == Crosses(p, b, a)
  {
    if Straddles(p, a, b) {
      SameCrossing(p, a, b);
    }
    hide CrossingX;
  }

  lemma SameCrossing(p: Vertex, a: Vertex, b: Vertex)
    requires Straddles(p, a, b)
    ensures Straddles(p, b, a) && CrossingX(p, a, b) == CrossingX(p, b, a)
  {
    var u, v := (p.y - a.y) / (b.y - a.y), (p.y - b.y) / (a.y - b.y);
    Complement(p.y, a.y, b.y);
    Blend(u, v, a.x, b.x);
  }

  lemma Complement(l: real, y: real, z: real)
    requires y != z
    ensures (l - y) / (z - y) + (l - z) / (y - z) == 1.0
  {
    var d := z - y;
    NegatedDivisor(l - z, d, y - z);
    SumOfQuotients(l - y, -(l - z), d);
    WholeQuotient(l - y + -(l - z), d);
  }

  lemma SumOfQuotients(x: real, y: real, d: real)
    requires d != 0.0
    ensures x / d + y / d == (x + y) / d
  {
  }

  lemma NegatedDivisor(x: real, d: real, e: real)
    requires d != 0.0 && e == -d
    ensures x / e == (-x) / d
  {
  }

  lemma WholeQuotient(x: real, d: real)
    requires d != 0.0 && x == d
    ensures x / d == 1.0
  {
  }

  lemma Opposite(v: real, d: real, e: real)
    requires e == -d
    ensures v * e == -(v * d)
  {
  }

  lemma Blend(u: real, v: real, x: real, y: real)
    requires u + v == 1.0
    ensures x + u * (y - x) == y + v * (x - y)
  {
    assert v == 1.0 - u;
    assert v * (x - y) == (x - y) - u * (x - y);
    assert u * (x - y) == -(u * (y - x));
  }

  // ---- where the ring starts ------------------------------------------------------------------

  /** Starting a ring one vertex on crosses the same edges. */
  lemma {:induction false} RoundFromNext(p: Vertex, ring: Ring)
    requires |ring| > 0
    ensures Round(p, ring[1..] + [ring[0]]) == Round(p, ring)
  {
    hide Crosses;
    var first, rest := ring[0], ring[1..];
    assert ring == [first] + rest;
    if |rest| > 0 {
      PathMore(p, rest, first);
      PathBefore(p, first, rest);
    } else {
      assert rest + [first] == ring;
    }
  }

  /** The answer is the same wherever the ring starts. */
  lemma {:induction false} AnyStart(p: Vertex, ring: Ring, k: nat)
    requires k <= |ring|
    ensures Inside(p, ring[k..] + ring[..k]) == Inside(p, ring)
  {
    hide Round;
    if k == 0 {
      assert ring[0..] + ring[..0] == ring;
    } else {
      AnyStart(p, ring, k - 1);
      var turned := ring[k-1..] + ring[..k-1];
      RoundFromNext(p, turned);
      assert turned[1..] + [turned[0]] == ring[k..] + ring[..k];
    }
  }

  // ---- which way it goes ----------------------------------------------------------------------

  function Reversed(s: Ring): (r: Ring)
    ensures |r| == |s| && forall i :: 0 <= i < |s| ==> r[i] == s[|s| - 1 - i]
  {
    if |s| == 0 then [] else [s[|s|-1]] + Reversed(s[..|s|-1])
  }

  lemma {:induction false} PathReversed(p: Vertex, s: Ring)
    ensures Path(p, Reversed(s)) == Path(p, s)
  {
    hide Crosses;
    if |s| > 1 {
      var init, last := s[..|s|-1], s[|s|-1];
      PathReversed(p, init);
      PathBefore(p, last, Reversed(init));
      CrossesBothWays(p, last, init[|init|-1]);
    }
  }

  /** The answer is the same whichever way the ring goes round. */
  lemma {:induction false} EitherWay(p: Vertex, ring: Ring)
    ensures Inside(p, Reversed(ring)) == Inside(p, ring)
  {
    hide Crosses;
    PathReversed(p, ring);
    if |ring| > 0 {
      CrossesBothWays(p, ring[0], ring[|ring|-1]);
    }
  }

  /** The answer is the same when the ring repeats its first vertex. */
  lemma {:induction false} ClosedOrNot(p: Vertex, ring: Ring)
    requires |ring| > 0
    ensures Inside(p, ring + [ring[0]]) == Inside(p, ring)
  {
    PathMore(p, ring, ring[0]);
    assert !Crosses(p, ring[0], ring[0]);
    hide Crosses;
  }

  // ---- outside the bounding box ---------------------------------------------------------------

  /** How many edges of a path straddle the point's height. */
  function Straddling(p: Vertex, s: Ring): nat {
    if |s| < 2 then 0 else Straddling(p, s[..|s|-1]) + One(Straddles(p, s[|s|-1], s[|s|-2]))
  }

  /** A path changes sides an odd number of times exactly when it ends on the other side. */
  lemma {:induction false} SidesChange(p: Vertex, s: Ring)
    requires |s| > 0
    ensures Straddling(p, s) % 2 == 1 <==> (s[0].y > p.y) != (s[|s|-1].y > p.y)
  {
    if |s| > 1 {
      SidesChange(p, s[..|s|-1]);
    }
  }

  /** To the left of everything the ray crosses each edge that straddles it. */
  lemma {:induction false} LeftCrossesAll(p: Vertex, s: Ring)
    requires forall i :: 0 <= i < |s| ==> p.x < s[i].x
    ensures Path(p, s) == Straddling(p, s)
  {
    hide Crosses, Straddles;
    if |s| > 1 {
      LeftCrossesAll(p, s[..|s|-1]);
      LeftOfEdge(p, s[|s|-1], s[|s|-2]);
    }
  }

  lemma LeftOfEdge(p: Vertex, a: Vertex, b: Vertex)
    requires p.x < a.x && p.x < b.x
    ensures Crosses(p, a, b) == Straddles(p, a, b)
  {
    if Straddles(p, a, b) {
      CrossingBetween(p, a, b);
    }
  }

  /** The crossing lies between the edge's ends. */
  lemma CrossingBetween(p: Vertex, a: Vertex, b: Vertex)
    requires Straddles(p, a, b)
    ensures (if a.x < b.x then a.x else b.x) <= CrossingX(p, a, b) <= (if a.x < b.x then b.x else a.x)
  {
    var u := (p.y - a.y) / (b.y - a.y);
    Fraction(p.y - a.y, b.y - a.y);
    var w, back := b.x - a.x, a.x - b.x;
    assert CrossingX(p, a, b) == a.x + u * w;
    if w >= 0.0 {
      Scale(u, w);
    } else {
      Scale(u, back);
      Opposite(u, w, back);
    }
  }

  lemma Fraction(x: real, d: real)
    requires (0.0 <= x <= d && d != 0.0) || (d <= x <= 0.0 && d != 0.0)
    ensures 0.0 <= x / d <= 1.0
  {
    assert x / d * d == x;
  }

  lemma Scale(u: real, w: real)
    requires 0.0 <= u <= 1.0 && w >= 0.0
    ensures 0.0 <= u * w <= w
  {
  }

  lemma {:induction false} NoneCrossed(p: Vertex, s: Ring)
    requires forall i, k :: 0 <= i < |s| && 0 <= k < |s| ==> !Crosses(p, s[i], s[k])
    ensures Path(p, s) == 0
  {
    hide Crosses;
    if |s| > 1 {
      NoneCrossed(p, s[..|s|-1]);
    }
  }

  lemma RightOfEdge(p: Vertex, a: Vertex, b: Vertex)
    requires p.x > a.x && p.x > b.x
    ensures !Crosses(p, a, b)
  {
    if Straddles(p, a, b) {
      CrossingBetween(p, a, b);
    }
  }

  /** A point above, below or beside every vertex is outside. */
  lemma {:induction false} OutsideBox(p: Vertex, ring: Ring)
    requires (forall i :: 0 <= i < |ring| ==> p.x < ring[i].x) || (forall i :: 0 <= i < |ring| ==> p.x > ring[i].x)
          || (forall i :: 0 <= i < |ring| ==> p.y < ring[i].y) || (forall i :: 0 <= i < |ring| ==> p.y > ring[i].y)
    ensures !Inside(p, ring)
  {
    if |ring| > 0 {
      if forall i :: 0 <= i < |ring| ==> p.x < ring[i].x {
        LeftCrossesAll(p, ring);
        SidesChange(p, ring);
        LeftOfEdge(p, ring[0], ring[|ring|-1]);
      } else {
        forall i, k | 0 <= i < |ring| && 0 <= k < |ring| ensures !Crosses(p, ring[i], ring[k]) {
          if forall n :: 0 <= n < |ring| ==> p.x > ring[n].x {
            RightOfEdge(p, ring[i], ring[k]);
          }
        }
        NoneCrossed(p, ring);
      }
    }
  }

  // ---- which side of an edge ------------------------------------------------------------------

  /** The crossing lies on the edge's line. */
  lemma CrossingOnLine(p: Vertex, a: Vertex, b: Vertex)
    requires Straddles(p, a, b)
    ensures (CrossingX(p, a, b) - a.x) * (b.y - a.y) == (p.y - a.y) * (b.x - a.x)
  {
    var q, w, h := (p.y - a.y) / (b.y - a.y), b.x - a.x, b.y - a.y;
    assert q * h == p.y - a.y;
    assert CrossingX(p, a, b) - a.x == q * w;
    Swap(q, w, h);
  }

  lemma Swap(q: real, w: real, h: real)
    ensures q * w * h == q * h * w
  {
  }

  lemma LessTimes(x: real, y: real, h: real)
    requires h != 0.0
    ensures x < y <==> if h > 0.0 then x * h < y * h else x * h > y * h
  {
    if h > 0.0 {
      Stretch(x, y, h);
    } else {
      Stretch(x, y, -h);
      assert x * -h == -(x * h) && y * -h == -(y * h);
    }
  }

  lemma Stretch(x: real, y: real, h: real)
    requires h > 0.0
    ensures x < y <==> x * h < y * h
  {
    assert y * h - x * h == (y - x) * h;
    if x < y {
      assert (y - x) * h > 0.0;
    } else {
      assert (x - y) * h >= 0.0;
      assert (x - y) * h == x * h - y * h;
    }
  }

  /** The ray crosses an edge exactly when the edge passes the point's height, its lower end counted and its
      upper end not, with the point on its left as one walks up it. */
  lemma CrossesExactly(p: Vertex, a: Vertex, b: Vertex)
    ensures var side := (p.x - a.x) * (b.y - a.y) - (p.y - a.y) * (b.x - a.x);
            Crosses(p, a, b) <==> (a.y <= p.y < b.y && side < 0.0) || (b.y <= p.y < a.y && side > 0.0)
  {
    if Straddles(p, a, b) {
      CrossingOnLine(p, a, b);
      LessTimes(p.x - a.x, CrossingX(p, a, b) - a.x, b.y - a.y);
      hide CrossingX;
    }
  }

  /** The ring of a rectangle, closed, as `box_polygon` lists it. */
  function Rectangle(x1: real, y1: real, x2: real, y2: real): Ring {
    [Vertex(x1, y1), Vertex(x2, y1), Vertex(x2, y2), Vertex(x1, y2), Vertex(x1, y1)]
  }

  /** A point is in a rectangle exactly when it is between its sides, the left and the lower one included. */
  lemma InRectangle(p: Vertex, x1: real, y1: real, x2: real, y2: real)
    requires x1 < x2 && y1 < y2
    ensures Inside(p, Rectangle(x1, y1, x2, y2)) <==> x1 <= p.x < x2 && y1 <= p.y < y2
  {
    var a, b, c, d := Vertex(x1, y1), Vertex(x2, y1), Vertex(x2, y2), Vertex(x1, y2);
    UprightEdge(p, b, c);
    UprightEdge(p, d, a);
    CrossesBothWays(p, c, b);
    CrossesBothWays(p, a, d);
    assert !Crosses(p, b, a) && !Crosses(p, d, c) && !Crosses(p, a, a);
    RoundRectangle(p, a, b, c, d);
  }

  lemma UprightEdge(p: Vertex, a: Vertex, b: Vertex)
    requires a.x == b.x
    ensures Crosses(p, a, b) <==> (a.y <= p.y < b.y || b.y <= p.y < a.y) && p.x < a.x
  {
    if Straddles(p, a, b) {
      CrossingBetween(p, a, b);
    }
    hide CrossingX;
  }

  lemma RoundRectangle(p: Vertex, a: Vertex, b: Vertex, c: Vertex, d: Vertex)
    ensures Round(p, [a, b, c, d, a]) ==
      One(Crosses(p, b, a)) + One(Crosses(p, c, b)) + One(Crosses(p, d, c)) + One(Crosses(p, a, d)) +
      One(Crosses(p, a, a))
  {
    hide Crosses;
    PathMore(p, [a], b);
    PathMore(p, [a, b], c);
    PathMore(p, [a, b, c], d);
    PathMore(p, [a, b, c, d], a);
    assert [a] + [b] == [a, b] && [a, b] + [c] == [a, b, c] && [a, b, c] + [d] == [a, b, c, d];
    assert [a, b, c, d] + [a] == [a, b, c, d, a];
  }
}

/** Greedy association of tracks and detections by score.

    The result is the one matching no eligible pair has cause to leave: every eligible pair shares
    a side with a matched pair that comes no later in the order of scores.  There is only one such
    matching. */
module Association {

  /** A track and a detection, by position, and how well they overlap. */
  datatype Pair = Pair(score: real, t: nat, d: nat)

  predicate Conflict(a: Pair, b: Pair) {
    a.t == b.t || a.d == b.d
  }

  /** Best score first, then by position. */
  predicate Before(a: Pair, b: Pair) {
    a.score > b.score || (a.score == b.score && (a.t < b.t || (a.t == b.t && a.d < b.d)))
  }

  ghost predicate Ordered(P: seq<Pair>) {
    forall i, j :: 0 <= i < j < |P| ==> Before(P[i], P[j])
  }

  /** No two candidates are the same track with the same detection. */
  ghost predicate Distinct(P: seq<Pair>) {
    forall i, j :: 0 <= i < j < |P| ==> P[i].t != P[j].t || P[i].d != P[j].d
  }

  function Insert(P: seq<Pair>, x: Pair): seq<Pair> {
    if |P| == 0 || !Before(x, P[|P|-1]) then P + [x] else Insert(P[..|P|-1], x) + [P[|P|-1]]
  }

  function Sort(P: seq<Pair>): seq<Pair> {
    if |P| == 0 then [] else Insert(Sort(P[..|P|-1]), P[|P|-1])
  }

  lemma {:induction false} InsertOrdered(P: seq<Pair>, x: Pair)
    requires Ordered(P) && forall p :: p in P ==> p.t != x.t || p.d != x.d
    ensures Ordered(Insert(P, x)) && forall p :: p in Insert(P, x) <==> p in P || p == x
  {
    if |P| > 0 && Before(x, P[|P|-1]) {
      var init, last := P[..|P|-1], P[|P|-1];
      assert P == init + [last];
      InsertOrdered(init, x);
      assert forall p :: p in Insert(init, x) ==> Before(p, last);
    } else if |P| > 0 {
      assert Before(P[|P|-1], x);
      assert forall i :: 0 <= i < |P| ==> Before(P[i], x);
    }
  }

  lemma {:induction false} SortOrdered(P: seq<Pair>)
    requires Distinct(P)
    ensures Ordered(Sort(P)) && forall p :: p in Sort(P) <==> p in P
  {
    if |P| > 0 {
      var init, last := P[..|P|-1], P[|P|-1];
      assert P == init + [last];
      SortOrdered(init);
      InsertOrdered(Sort(init), last);
    }
  }

  /** Each side is used once, only pairs scoring at least `floor` are, and each such pair shares a
      side with one that is used and comes no later. */
  ghost predicate Stable(P: seq<Pair>, floor: real, M: seq<Pair>) {
    && (forall m :: m in M ==> m in P && m.score >= floor)
    && (forall i, j :: 0 <= i < j < |M| ==> !Conflict(M[i], M[j]))
    && (forall p :: p in P && p.score >= floor ==> Taken(M, p))
  }

  ghost predicate Taken(M: seq<Pair>, p: Pair) {
    exists m :: m in M && Conflict(m, p) && (m == p || Before(m, p))
  }

  lemma OnlyOne(P: seq<Pair>, floor: real, M: seq<Pair>, p: Pair, q: Pair)
    requires Stable(P, floor, M) && p in M && q in M && Conflict(q, p)
    ensures p == q
  {
    var a :| 0 <= a < |M| && M[a] == p;
    var b :| 0 <= b < |M| && M[b] == q;
  }

  lemma TakenBy(P: seq<Pair>, floor: real, M: seq<Pair>, i: nat) returns (j: nat)
    requires Ordered(P) && Stable(P, floor, M) && i < |P| && P[i].score >= floor
    ensures j <= i && P[j] in M && Conflict(P[j], P[i])
  {
    assert Taken(M, P[i]);
    var q :| q in M && Conflict(q, P[i]) && (q == P[i] || Before(q, P[i]));
    j :| 0 <= j < |P| && P[j] == q;
  }

  lemma {:induction false} StableAgree(P: seq<Pair>, floor: real, M: seq<Pair>, N: seq<Pair>, i: nat)
    requires Ordered(P) && Stable(P, floor, M) && Stable(P, floor, N) && i < |P| && P[i] in M
    ensures P[i] in N
    decreases i
  {
    assert P[i].score >= floor;
    hide Stable, Conflict, Before, Ordered;
    var j := TakenBy(P, floor, N, i);
    if j < i {
      StableAgree(P, floor, N, M, j);
      OnlyOne(P, floor, M, P[i], P[j]);
    }
  }

  /** There is one stable matching. */
  lemma {:induction false} StableUnique(P: seq<Pair>, floor: real, M: seq<Pair>, N: seq<Pair>)
    requires Distinct(P) && Stable(P, floor, M) && Stable(P, floor, N)
    ensures forall p :: p in M <==> p in N
  {
    var S := Sort(P);
    SortOrdered(P);
    assert Stable(S, floor, M) && Stable(S, floor, N);
    forall p | p in M || p in N ensures p in M && p in N {
      var i :| 0 <= i < |S| && S[i] == p;
      if p in M {
        StableAgree(S, floor, M, N, i);
      } else {
        StableAgree(S, floor, N, M, i);
      }
    }
  }

  lemma TakenStill(M: seq<Pair>, x: Pair, p: Pair)
    requires Taken(M, p)
    ensures Taken(M + [x], p)
  {
    var m :| m in M && Conflict(m, p) && (m == p || Before(m, p));
    assert m in M + [x];
  }

  /** What the first `n` pairs, in order, leave taken. */
  ghost predicate Upto(S: seq<Pair>, floor: real, n: nat, M: seq<Pair>)
    requires n <= |S|
  {
    && (forall m :: m in M ==> m in S[..n] && m.score >= floor)
    && (forall i, j :: 0 <= i < j < |M| ==> !Conflict(M[i], M[j]))
    && (forall i :: 0 <= i < n && S[i].score >= floor ==> Taken(M, S[i]))
    && Ordered(M)
  }

  lemma UptoTake(S: seq<Pair>, floor: real, n: nat, M: seq<Pair>)
    requires Ordered(S) && n < |S| && Upto(S, floor, n, M) && S[n].score >= floor
    requires forall m :: m in M ==> !Conflict(m, S[n])
    ensures Upto(S, floor, n + 1, M + [S[n]])
  {
    var p := S[n];
    var more := M + [p];
    hide Before, Conflict;
    forall i | 0 <= i < n && S[i].score >= floor ensures Taken(more, S[i]) {
      TakenStill(M, p, S[i]);
    }
    TakesItself(M, p);
    forall i | 0 <= i < |M| ensures Before(M[i], p) && !Conflict(M[i], p) {
      assert M[i] in M && M[i] in S[..n];
    }
  }

  lemma TakesItself(M: seq<Pair>, p: Pair)
    ensures Taken(M + [p], p)
  {
    assert p in M + [p];
  }

  lemma UptoSkip(S: seq<Pair>, floor: real, n: nat, M: seq<Pair>)
    requires Ordered(S) && n < |S| && Upto(S, floor, n, M)
    requires exists m :: m in M && Conflict(m, S[n])
    ensures Upto(S, floor, n + 1, M)
  {
    AlreadyTaken(S, n, M, S[n]);
    hide Taken, Before, Conflict;
  }

  /** Below the floor nothing more is taken. */
  lemma UptoEnd(S: seq<Pair>, floor: real, n: nat, M: seq<Pair>)
    requires Ordered(S) && n <= |S| && Upto(S, floor, n, M) && (n < |S| ==> S[n].score < floor)
    ensures Stable(S, floor, M)
  {
    hide Taken, Conflict;
    forall p | p in S && p.score >= floor ensures Taken(M, p) {
      var i :| 0 <= i < |S| && S[i] == p;
      assert i < n || n == |S|;
    }
  }

  lemma SameStable(P: seq<Pair>, S: seq<Pair>, floor: real, M: seq<Pair>)
    requires Stable(S, floor, M) && forall p :: p in S <==> p in P
    ensures Stable(P, floor, M)
  {
    hide Taken, Conflict;
  }

  /** Best pair first, each side once, down to the floor. */
  method Greedy(P: seq<Pair>, floor: real) returns (M: seq<Pair>)
    requires Distinct(P)
    ensures Stable(P, floor, M) && Ordered(M)
  {
    var S := Sort(P);
    SortOrdered(P);
    M := [];
    var usedT: set<nat>, usedD: set<nat> := {}, {};
    hide Sort, Ordered, Taken, Before, Stable;
    assert Upto(S, floor, 0, M) by {
      NothingTaken(S, floor);
    }
    var n := 0;
    while n < |S|
      invariant 0 <= n <= |S| && Upto(S, floor, n, M)
      invariant forall t :: t in usedT <==> exists m :: m in M && m.t == t
      invariant forall d :: d in usedD <==> exists m :: m in M && m.d == d
    {
      var p := S[n];
      if p.score < floor {
        break;
      }
      if p.t in usedT || p.d in usedD {
        UptoSkip(S, floor, n, M);
      } else {
        UptoTake(S, floor, n, M);
        assert p in M + [p];
        M := M + [p];
        usedT, usedD := usedT + {p.t}, usedD + {p.d};
      }
      n := n + 1;
    }
    UptoEnd(S, floor, n, M);
    SameStable(P, S, floor, M);
    UptoOrdered(S, floor, n, M);
  }

  lemma NothingTaken(S: seq<Pair>, floor: real)
    ensures Upto(S, floor, 0, [])
  {
  }

  lemma UptoOrdered(S: seq<Pair>, floor: real, n: nat, M: seq<Pair>)
    requires n <= |S| && Upto(S, floor, n, M)
    ensures Ordered(M)
  {
  }

  lemma AlreadyTaken(S: seq<Pair>, n: nat, M: seq<Pair>, p: Pair)
    requires Ordered(S) && n < |S| && S[n] == p && forall m :: m in M ==> m in S[..n]
    requires exists m :: m in M && Conflict(m, p)
    ensures Taken(M, p)
  {
    var m :| m in M && Conflict(m, p);
    var i :| 0 <= i < n && S[i] == m;
  }
}

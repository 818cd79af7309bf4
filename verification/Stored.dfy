/** What is stored for one asset: its positions, the mark that a late fix leaves in its cursor, and the
    buckets a rebuild rewrites. */
module Stored {
  import opened Wrappers
  import opened Track
  import opened Cycles
  import opened Analysis
  import opened Locality
  import opened Restart
  import opened Finality
  import opened Metrics
  import T = Totals
  import opened Recompute
  import opened Buckets
  import opened Refresh

  // ---- storing a fix --------------------------------------------------------------------------

  /** The stored positions after a fix arrives: a fix at a time already stored changes nothing. */
  function Inserted(F: seq<Fix>, f: Fix): seq<Fix> {
    var n := FirstFrom(F, f.ts);
    if n < |F| && F[n].ts == f.ts then F else F[..n] + [f] + F[n..]
  }

  predicate IsNew(F: seq<Fix>, f: Fix) {
    var n := FirstFrom(F, f.ts);
    n == |F| || F[n].ts != f.ts
  }

  lemma {:induction false} InsertedSorted(F: seq<Fix>, f: Fix)
    requires Sorted(F)
    ensures Sorted(Inserted(F, f))
    ensures IsNew(F, f) <==> forall g :: g in F ==> g.ts != f.ts
    ensures IsNew(F, f) ==> forall g :: g in Inserted(F, f) <==> g in F || g == f
  {
    var n := FirstFrom(F, f.ts);
    LaterThan(F, n, f.ts);
    hide FirstFrom, Sorted;
    NewHere(F, n, f);
    if IsNew(F, f) {
      assert Sorted(F);
      InsertAt(F, n, f);
    }
  }

  lemma NewHere(F: seq<Fix>, n: nat, f: Fix)
    requires Sorted(F) && n <= |F| && (forall i :: 0 <= i < n ==> F[i].ts < f.ts) && (n < |F| ==> F[n].ts >= f.ts)
    ensures (n == |F| || F[n].ts != f.ts) <==> forall g :: g in F ==> g.ts != f.ts
  {
    if n == |F| || F[n].ts != f.ts {
      forall g | g in F ensures g.ts != f.ts {
        var i :| 0 <= i < |F| && F[i] == g;
      }
    }
  }

  lemma InsertAt(F: seq<Fix>, n: nat, f: Fix)
    requires Sorted(F) && n <= |F|
    requires (forall i :: 0 <= i < n ==> F[i].ts < f.ts) && (forall i :: n <= i < |F| ==> F[i].ts > f.ts)
    ensures var G := F[..n] + [f] + F[n..]; Sorted(G) && forall g :: g in G <==> g in F || g == f
  {
    var G := F[..n] + [f] + F[n..];
    forall i, j | 0 <= i < j < |G| ensures G[i].ts < G[j].ts {
      assert G[i] == if i < n then F[i] else if i == n then f else F[i-1];
      assert G[j] == if j < n then F[j] else if j == n then f else F[j-1];
    }
    assert F == F[..n] + F[n..];
  }

  /** The mark: a fix behind the newest one a rebuild has read lowers it; the first fix of all
      makes the cursor. */
  function Marked(cursor: Option<Cursor>, ts: int): Cursor {
    match cursor
    case None => Cursor(None, None, None, Some(ts))
    case Some(cur) =>
      if (cur.through.None? || ts < cur.through.value) && (cur.dirty.None? || ts < cur.dirty.value)
      then cur.(dirty := Some(ts)) else cur
  }

  /** Marking keeps what the cursor knows. */
  lemma {:induction false} MarkKnows(p: Params, w: int, cur: Cursor, B: seq<Fix>, F: seq<Fix>, f: Fix)
    requires w > 0 && Knows(p, w, cur, B, F) && IsNew(F, f)
    ensures Knows(p, w, Marked(Some(cur), f.ts), B, Inserted(F, f))
  {
    hide FullResume, NextMetricsFrom;
    var G := Inserted(F, f);
    InsertedSorted(F, f);
    if cur.resume.None? {
      assert F[0] in G && f in G && G[0] in G;
      FirstOf(G, F[0]);
      FirstOf(G, f);
      assert G[0] in F ==> G[0].ts >= F[0].ts by {
        if G[0] in F {
          FirstOf(F, G[0]);
        }
      }
    } else {
      var last := B[|B|-1];
      assert last in F;
      assert f.ts != last.ts;
    }
  }

  lemma FirstOf(F: seq<Fix>, g: Fix)
    requires Sorted(F) && g in F
    ensures F[0].ts <= g.ts
  {
    var i :| 0 <= i < |F| && F[i] == g;
  }

  /** The first fix makes a cursor that knows nothing yet. */
  lemma FirstKnows(p: Params, w: int, f: Fix)
    requires w > 0
    ensures Knows(p, w, Marked(None, f.ts), [], Inserted([], f)) && IsNew([], f)
  {
  }

  // ---- rewriting the buckets ------------------------------------------------------------------

  /** The buckets of the rows read, with the rebuilt cycles and those kept in `done` counted. */
  ghost predicate Loaded(p: Params, w: int, R: seq<Fix>, list: seq<Cycle>, done: set<Cycle>, next: map<int, Bucket>)
    requires w > 0
  {
    && next.Keys == Starts(R, w)
    && forall b :: b in next ==>
         next[b] == Content(p, w, R, b, |R|).(loads := EndsIn(list, w, b) + |Ending(done, w, b)|)
  }

  /** One more kept cycle counted. */
  lemma {:induction false} CountKept(p: Params, w: int, R: seq<Fix>, list: seq<Cycle>, done: set<Cycle>,
                                     next: map<int, Bucket>, y: Cycle)
    requires w > 0 && y !in done && Loaded(p, w, R, list, done, next)
    ensures var key := Floor(y.end, w);
            Loaded(p, w, R, list, done + {y},
                   if key in next then next[key := next[key].(loads := next[key].loads + 1)] else next)
  {
    hide Content, Floor, EndsIn, Starts, Ending;
    var key := Floor(y.end, w);
    var after := if key in next then next[key := next[key].(loads := next[key].loads + 1)] else next;
    forall b | b in after
      ensures after[b] == Content(p, w, R, b, |R|).(loads := EndsIn(list, w, b) + |Ending(done + {y}, w, b)|)
    {
      OneMore(done, y, w, b);
    }
  }

  method BucketsOf(p: Params, w: int, R: seq<Fix>, m: int, list: seq<Cycle>,
                   kept: set<Cycle>) returns (next: map<int, Bucket>)
    requires w > 0 && forall b :: b in Starts(R, w) ==> b >= m
    ensures Loaded(p, w, R, list, kept, next)
  {
    hide T.Sums;
    next := T.ComputeMetrics(p, w, R, list);
    assert Loaded(p, w, R, list, {}, next) by {
      assert forall b :: Ending({}, w, b) == {};
    }
    hide Content, Floor, EndsIn, Starts, Ending;
    var rest := kept;
    ghost var done := {};
    while rest != {}
      invariant rest !! done && rest + done == kept
      invariant Loaded(p, w, R, list, done, next)
      decreases |rest|
    {
      var y :| y in rest;
      CountKept(p, w, R, list, done, next, y);
      rest := rest - {y};
      done := done + {y};
      var key := Floor(y.end, w);
      BucketEnd(y.end, w);
      if y.end >= m && key in next {
        next := next[key := next[key].(loads := next[key].loads + 1)];
      }
    }
    assert done == kept;
  }

  lemma BucketEnd(t: int, w: int)
    requires w > 0
    ensures Floor(t, w) <= t
  {
  }

  method Rewrite(p: Params, w: int, stored: map<int, Bucket>, F: seq<Fix>, m: int, list: seq<Cycle>, kept: set<Cycle>)
    returns (next: map<int, Bucket>)
    requires w > 0 && Sorted(F) && Floor(m, w) == m
    ensures next == Rewritten(p, w, stored, F, m, list, kept)
  {
    hide Content, Floor, EndsIn, Starts, FirstFrom;
    var R := F[FirstFrom(F, m)..];
    forall b {
      RowsFrom(p, w, F, m, b);
    }
    var rewritten := BucketsOf(p, w, R, m, list, kept);
    var before := map b | b in stored && b < m :: stored[b];
    next := before + rewritten;
  }

  // ---- what the cursor says ------------------------------------------------------------------

  /** The fast path is taken only when the open visit simply continued. */
  lemma {:induction false} OpenSpan(p: Params, w: int, cur: Cursor, B: seq<Fix>, F: seq<Fix>, stored: set<int>,
                                    span: Span)
    requires w > 0 && p.cap.Some? && p.Ok() && Knows(p, w, cur, B, F)
    requires ChooseWindow(p, w, cur, F, stored) == Some(span)
    requires StillInOpenVisit(p, F[FirstFrom(F, span.metricsFrom)..], span)
    ensures 0 < |B| && FullResume(p, B) == Resume(span.cyclesFrom, true, true)
    ensures Share(B, F, |B|) && forall j :: |B| <= j < |F| ==> F[j].In(Load)
    ensures F[|F|-1].ts - span.cyclesFrom < p.cap.value
  {
    hide FullResume, GrewFrom;
    assert 0 < |B| && cur.dirty == None;
    var last := B[|B|-1].ts;
    GrewAfter(B, F);
    ShareAt(B, F, |B|, |B| - 1);
    var k := FirstFrom(F, span.metricsFrom);
    FloorMono(last - p.minVisit - p.minExit, last, w);
    hide FirstFrom, Floor;
    assert span.metricsFrom <= last;
    forall j | |B| <= j < |F| ensures F[j].In(Load) {
      assert F[j].ts > last;
      assert F[j] == F[k..][j - k];
    }
  }
}

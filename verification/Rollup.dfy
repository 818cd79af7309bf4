/** People counts of one camera, per zone and time bucket.

    For feeds in time order: what came in less what went out is who is inside; a bucket never
    claims more observed time than has passed in it; and every record meets its contract. */
module Rollup {
  import opened Wrappers
  import opened Presence
  import opened Counting
  import M = Metrics

  datatype Bucket = Bucket(start: int, tallies: map<Key, Tally>, observed: int)

  datatype Record = Record(key: Key, start: int, countMax: nat, countMean: real, entries: nat, exits: nat,
                           dwellMax: int, observed: int)

  // ---- records --------------------------------------------------------------------------------

  function MaxCount(s: seq<nat>): (m: nat)
    ensures (forall i :: 0 <= i < |s| ==> s[i] <= m) && (|s| > 0 ==> m in s)
  {
    if |s| == 0 then 0
    else
      var rest := MaxCount(s[..|s|-1]);
      assert forall i :: 0 <= i < |s| - 1 ==> s[i] == s[..|s|-1][i];
      if s[|s|-1] > rest then s[|s|-1] else rest
  }

  function Sum(s: seq<nat>): nat {
    if |s| == 0 then 0 else Sum(s[..|s|-1]) + s[|s|-1]
  }

  function Mean(s: seq<nat>): real
    requires |s| > 0
  {
    Sum(s) as real / |s| as real
  }

  lemma {:induction false} SumBound(s: seq<nat>, m: nat)
    requires forall i :: 0 <= i < |s| ==> s[i] <= m
    ensures Sum(s) <= m * |s|
  {
    if |s| > 0 {
      SumBound(s[..|s|-1], m);
      assert m * |s| == m * (|s| - 1) + m;
    }
  }

  lemma {:induction false} MeanWithinMax(s: seq<nat>)
    requires |s| > 0
    ensures 0.0 <= Mean(s) <= MaxCount(s) as real
  {
    hide MaxCount, Sum;
    SumBound(s, MaxCount(s));
    MeanBound(Sum(s), MaxCount(s), |s|);
  }

  lemma MeanBound(x: nat, m: nat, n: nat)
    requires n > 0 && x <= m * n
    ensures 0.0 <= x as real / n as real <= m as real
  {
    assert (m * n) as real == m as real * n as real;
    DivBound(x as real, m as real, n as real);
  }

  lemma DivBound(x: real, m: real, n: real)
    requires n > 0.0 && 0.0 <= x <= m * n
    ensures 0.0 <= x / n <= m
  {
    assert x / n * n == x;
  }

  /** How long a track still inside has been seen there. */
  function DwellOf(v: Visit): Option<int> {
    if v.inside && v.start.Some? && v.lastIn.Some? then Some(v.lastIn.value - v.start.value) else None
  }

  /** The longest of the finished dwells and of those still going on; 0 when there is none. */
  ghost predicate Longest(m: int, dwells: seq<int>, visits: Visits) {
    && m >= 0 && (forall d :: d in dwells ==> d <= m)
    && (forall t :: t in visits && DwellOf(visits[t]).Some? ==> DwellOf(visits[t]).value <= m)
    && (m == 0 || m in dwells || exists t :: t in visits && DwellOf(visits[t]) == Some(m))
  }

  method LongestDwell(dwells: seq<int>, visits: Visits) returns (m: int)
    ensures Longest(m, dwells, visits)
  {
    m := 0;
    for i := 0 to |dwells|
      invariant m >= 0 && (forall j :: 0 <= j < i ==> dwells[j] <= m) && (m == 0 || m in dwells)
    {
      if dwells[i] > m {
        m := dwells[i];
      }
    }
    var rest := visits.Keys;
    while rest != {}
      invariant rest <= visits.Keys && m >= 0 && (forall d :: d in dwells ==> d <= m)
      invariant forall t :: t in visits && t !in rest && DwellOf(visits[t]).Some? ==> DwellOf(visits[t]).value <= m
      invariant m == 0 || m in dwells || exists t :: t in visits && DwellOf(visits[t]) == Some(m)
      decreases |rest|
    {
      var t :| t in rest;
      rest := rest - {t};
      var d := DwellOf(visits[t]);
      if d.Some? && d.value > m {
        m := d.value;
      }
    }
  }

  /** The record of one zone's tally. */
  ghost predicate IsRecord(r: Record, k: Key, b: Bucket, visits: Visits) {
    && k in b.tallies && |b.tallies[k].samples| > 0
    && var t := b.tallies[k];
       && r.key == k && r.start == b.start && r.countMax == MaxCount(t.samples) && r.countMean == Mean(t.samples)
       && r.entries == t.entries && r.exits == t.exits && Longest(r.dwellMax, t.dwells, visits)
  }

  /** What a record's contract requires. */
  predicate Valid(c: Config, r: Record) {
    r.countMean <= r.countMax as real && 0.0 <= r.countMean && 0 <= r.observed <= c.length && r.dwellMax >= 0
  }

  /** What came in less what went out, over the records of one zone. */
  function Total(records: seq<Record>, k: Key): int {
    if |records| == 0 then 0
    else
      var r := records[|records|-1];
      Total(records[..|records|-1], k) + (if r.key == k then r.entries - r.exits else 0)
  }

  lemma {:induction false} TotalApart(a: seq<Record>, b: seq<Record>, k: Key)
    ensures Total(a + b, k) == Total(a, k) + Total(b, k)
  {
    if |b| == 0 {
      assert a + b == a;
    } else {
      TotalApart(a, b[..|b|-1], k);
      assert (a + b)[..|a + b|-1] == a + b[..|b|-1];
    }
  }

  /** One record a zone: its own net, and nothing else's. */
  lemma {:induction false} TotalOfClose(records: seq<Record>, k: Key, i: nat)
    requires i < |records| && records[i].key == k && forall j :: 0 <= j < |records| && j != i ==> records[j].key != k
    ensures Total(records, k) == records[i].entries - records[i].exits
  {
    var n := |records| - 1;
    if i < n {
      TotalOfClose(records[..n], k, i);
    } else {
      TotalNone(records[..n], k);
    }
  }

  lemma {:induction false} TotalNone(records: seq<Record>, k: Key)
    requires forall j :: 0 <= j < |records| ==> records[j].key != k
    ensures Total(records, k) == 0
  {
    if |records| > 0 {
      TotalNone(records[..|records|-1], k);
    }
  }

  function VisitsOf(visits: map<Key, Visits>, k: Key): Visits {
    if k in visits then visits[k] else map[]
  }

  // ---- the invariant --------------------------------------------------------------------------

  /** A bucket with everything counted up to `last`. */
  ghost predicate Counted(c: Config, b: Bucket, last: int)
    requires c.Ok()
  {
    && b.start == M.Floor(last, c.length) && 0 <= b.observed <= last - b.start
    && forall i :: 0 <= i < |c.keys| ==>
         c.keys[i] in b.tallies && |b.tallies[c.keys[i]].samples| > 0 && GoodTally(b.tallies[c.keys[i]])
  }

  ghost predicate Conserved(c: Config, emitted: seq<Record>, bucket: Option<Bucket>, visits: map<Key, Visits>) {
    forall i :: 0 <= i < |c.keys| ==> ConservedAt(emitted, bucket, visits, c.keys[i])
  }

  ghost predicate ConservedAt(emitted: seq<Record>, bucket: Option<Bucket>, visits: map<Key, Visits>, k: Key) {
    var open := if bucket.Some? && k in bucket.value.tallies
      then bucket.value.tallies[k].entries - bucket.value.tallies[k].exits else 0;
    Total(emitted, k) + open == |Inside(VisitsOf(visits, k))|
  }

  ghost predicate AllTimed(c: Config, visits: map<Key, Visits>, now: int) {
    forall i :: 0 <= i < |c.keys| ==> Timed(VisitsOf(visits, c.keys[i]), now)
  }

  /** The records so far: each valid, and of each zone one a bucket, in order. */
  ghost predicate Sound(c: Config, emitted: seq<Record>)
    requires c.Ok()
  {
    && (forall i :: 0 <= i < |emitted| ==>
        Valid(c, emitted[i]) && M.Floor(emitted[i].start, c.length) == emitted[i].start)
    && (forall i, j :: 0 <= i < j < |emitted| && emitted[i].key == emitted[j].key ==>
        emitted[i].start < emitted[j].start)
  }

  /** The records are of buckets over by the boundary `t`. */
  ghost predicate OverBy(c: Config, emitted: seq<Record>, t: int) {
    forall i :: 0 <= i < |emitted| ==> emitted[i].start + c.length <= t
  }

  ghost predicate Inv(c: Config, bucket: Option<Bucket>, lastTs: Option<int>, visits: map<Key, Visits>,
                      emitted: seq<Record>, clock: int) {
    && c.Ok() && Conserved(c, emitted, bucket, visits) && Sound(c, emitted) && AllTimed(c, visits, clock)
    && (lastTs.Some? ==> lastTs.value <= clock)
    && (bucket.Some? ==>
          lastTs.Some? && Counted(c, bucket.value, lastTs.value) && OverBy(c, emitted, bucket.value.start))
    && (bucket.None? ==>
          OverBy(c, emitted, clock) && (lastTs.Some? ==> M.Floor(lastTs.value, c.length) + c.length <= clock))
  }

  /** The records a closed bucket gives: one a zone. */
  ghost predicate Closed(c: Config, b: Bucket, visits: map<Key, Visits>, records: seq<Record>) {
    |records| == |c.keys| && forall i :: 0 <= i < |c.keys| ==>
      IsRecord(records[i], c.keys[i], b, VisitsOf(visits, c.keys[i])) &&
        records[i].observed == (if b.observed < c.length then b.observed else c.length)
  }

  lemma {:induction false} CloseKeeps(c: Config, b: Bucket, last: int, visits: map<Key, Visits>, emitted: seq<Record>,
                                      records: seq<Record>, clock: int)
    requires Inv(c, Some(b), Some(last), visits, emitted, clock) && Closed(c, b, visits, records)
    ensures Conserved(c, emitted + records, None, visits) && Sound(c, emitted + records)
    ensures OverBy(c, emitted + records, b.start + c.length)
    ensures forall i :: 0 <= i < |records| ==> records[i].observed == b.observed
  {
    M.FloorAgain(last, c.length);
    forall i | 0 <= i < |records|
      ensures Valid(c, records[i]) && records[i].observed == b.observed && records[i].start == b.start
    {
      MeanWithinMax(b.tallies[c.keys[i]].samples);
    }
    var all := emitted + records;
    forall i, j | 0 <= i < j < |all| && all[i].key == all[j].key ensures all[i].start < all[j].start {
      if i < |emitted| <= j {
        assert emitted[i].start + c.length <= b.start;
      }
    }
    forall i | 0 <= i < |c.keys| ensures ConservedAt(all, None, visits, c.keys[i]) {
      assert ConservedAt(emitted, Some(b), visits, c.keys[i]);
      TotalApart(emitted, records, c.keys[i]);
      TotalOfClose(records, c.keys[i], i);
    }
  }

  // ---- the accumulator ------------------------------------------------------------------------

  function TallyOf(b: Bucket, k: Key): Tally {
    if k in b.tallies then b.tallies[k] else Tally([], 0, 0, [])
  }

  /** The first `n` zones have had the frame. */
  ghost predicate Fed(c: Config, n: nat, b: Bucket, before: map<Key, Visits>, next: Bucket, after: map<Key, Visits>,
                      objects: seq<Object>, ts: int)
    requires n <= |c.keys|
  {
    && next == b.(tallies := next.tallies)
    && forall i :: 0 <= i < |c.keys| ==> FedAt(c, i < n, b, before, next, after, objects, ts, c.keys[i])
  }

  ghost predicate FedAt(c: Config, fed: bool, b: Bucket, before: map<Key, Visits>, next: Bucket,
                        after: map<Key, Visits>, objects: seq<Object>, ts: int, k: Key)
  {
    var t, u := TallyOf(b, k), TallyOf(next, k);
    var v, w := VisitsOf(before, k), VisitsOf(after, k);
    if !fed then u == t && w == v && (k in next.tallies <==> k in b.tallies)
    else
      var members := Members(c, objects, k);
      && k in next.tallies && u.samples == t.samples + [|members|] && GoodTally(u) && Timed(w, ts)
      && (u.entries - u.exits) - (t.entries - t.exits) == |Inside(w)| - |Inside(v)|
      && Turned(c, v, w, members + v.Keys, members, ts) && Tallied(c, v, members + v.Keys, members, ts, t, u)
  }

  lemma {:induction false} FeedOne(c: Config, n: nat, b: Bucket, before: map<Key, Visits>, next: Bucket,
                                   after: map<Key, Visits>, objects: seq<Object>, ts: int, w: Visits, u: Tally)
    requires c.Ok() && n < |c.keys| && Fed(c, n, b, before, next, after, objects, ts)
    requires var k := c.keys[n]; var t := TallyOf(next, k); var v := VisitsOf(after, k);
      var members := Members(c, objects, k);
             && u.samples == t.samples + [|members|] && GoodTally(u) && Timed(w, ts)
             && (u.entries - u.exits) - (t.entries - t.exits) == |Inside(w)| - |Inside(v)|
             && Turned(c, v, w, members + v.Keys, members, ts) && Tallied(c, v, members + v.Keys, members, ts, t, u)
    ensures Fed(c, n + 1, b, before, next.(tallies := next.tallies[c.keys[n] := u]), after[c.keys[n] := w], objects, ts)
  {
    hide Members, Turned, Tallied, Timed, GoodTally, Inside;
    assert FedAt(c, n < n, b, before, next, after, objects, ts, c.keys[n]);
    forall i | 0 <= i < |c.keys|
      ensures FedAt(c, i < n + 1, b, before, next.(tallies := next.tallies[c.keys[n] := u]), after[c.keys[n] := w],
                    objects, ts, c.keys[i])
    {
      assert FedAt(c, i < n, b, before, next, after, objects, ts, c.keys[i]);
      if i != n {
        assert c.keys[i] != c.keys[n];
      }
    }
  }

  /** A frame counted into the open bucket keeps the invariant. */
  lemma {:induction false} FeedKeeps(c: Config, b: Bucket, next: Bucket, before: map<Key, Visits>,
                                     after: map<Key, Visits>, emitted: seq<Record>, objects: seq<Object>, ts: int)
    requires c.Ok() && Fed(c, |c.keys|, b, before, next, after, objects, ts)
    requires Conserved(c, emitted, Some(b), before) && Sound(c, emitted) && OverBy(c, emitted, b.start)
    requires b.start == M.Floor(ts, c.length) && 0 <= b.observed <= ts - b.start
    ensures Inv(c, Some(next), Some(ts), after, emitted, ts)
  {
    hide Members, Turned, Tallied, Timed, GoodTally, Inside, Sound, OverBy;
    forall i | 0 <= i < |c.keys|
      ensures ConservedAt(emitted, Some(next), after, c.keys[i])
      ensures c.keys[i] in next.tallies && |next.tallies[c.keys[i]].samples| > 0 && GoodTally(next.tallies[c.keys[i]])
      ensures Timed(VisitsOf(after, c.keys[i]), ts)
    {
      assert FedAt(c, i < |c.keys|, b, before, next, after, objects, ts, c.keys[i]);
      assert ConservedAt(emitted, Some(b), before, c.keys[i]);
    }
  }

  // ---- what the records tell of the frames ----------------------------------------------------

  /** The track is inside after all the frames, and has been that long. */
  ghost predicate StaysFor(c: Config, k: Key, frames: seq<Frame>, t: nat, d: int) {
    var H, n := Sights(c, k, t, frames), |frames|;
    InsideAfter(c, H, n) && Stay(c, H, n) == d
  }

  /** The longest stay that ended in the bucket or still goes on after the last frame; 0 when there is none. */
  ghost predicate LongestStay(c: Config, k: Key, frames: seq<Frame>, start: int, m: int)
    requires c.Ok()
  {
    && m >= 0 && (forall d :: Dwelt(c, k, frames, start, d) ==> d <= m)
    && (forall t, d :: StaysFor(c, k, frames, t, d) ==> d <= m)
    && (m == 0 || Dwelt(c, k, frames, start, m) || exists t :: StaysFor(c, k, frames, t, m))
  }

  /** The record says of its bucket what the frames do: the largest and the mean number of tracks shown, how many
      entered and left, the longest stay, and the time observed. */
  ghost predicate Tells(c: Config, frames: seq<Frame>, r: Record)
    requires c.Ok()
  {
    var sizes := Sizes(c, r.key, frames, r.start);
    && r.countMax in sizes && (forall i :: 0 <= i < |sizes| ==> sizes[i] <= r.countMax)
    && r.countMean * |sizes| as real == Sum(sizes) as real
    && r.entries == Entries(c, r.key, frames, r.start) && r.exits == Exits(c, r.key, frames, r.start)
    && LongestStay(c, r.key, frames, r.start, r.dwellMax) && r.observed == Observed(c, frames, r.start)
  }

  /** It told of the first frames; those that came later are of later buckets. */
  ghost predicate Recorded(c: Config, frames: seq<Frame>, r: Record)
    requires c.Ok()
  {
    exists n :: 0 <= n <= |frames| && Tells(c, frames[..n], r) && LaterFrom(c, frames, n, r.start)
  }

  ghost predicate LaterFrom(c: Config, frames: seq<Frame>, n: int, start: int)
    requires c.Ok() && 0 <= n
  {
    forall j :: n <= j < |frames| ==> M.Floor(frames[j].ts, c.length) > start
  }

  ghost predicate AllRecorded(c: Config, frames: seq<Frame>, emitted: seq<Record>)
    requires c.Ok()
  {
    forall i :: 0 <= i < |emitted| ==> Recorded(c, frames, emitted[i])
  }

  ghost predicate AllTold(c: Config, frames: seq<Frame>, visits: map<Key, Visits>) {
    forall i :: 0 <= i < |c.keys| ==> Told(c, c.keys[i], frames, VisitsOf(visits, c.keys[i]))
  }

  ghost predicate AllTallied(c: Config, frames: seq<Frame>, b: Bucket)
    requires c.Ok()
  {
    forall i :: 0 <= i < |c.keys| ==> TallyIs(c, c.keys[i], frames, b.start, TallyOf(b, c.keys[i]))
  }

  ghost predicate HasRecord(emitted: seq<Record>, k: Key, start: int) {
    exists i :: 0 <= i < |emitted| && emitted[i].key == k && emitted[i].start == start
  }

  /** Every zone has a record of every bucket that has a frame, but the open one. */
  ghost predicate Covers(c: Config, frames: seq<Frame>, open: Option<int>, emitted: seq<Record>)
    requires c.Ok()
  {
    forall i, j :: 0 <= i < |c.keys| && 0 <= j < |frames| ==>
      open == Some(M.Floor(frames[j].ts, c.length)) || HasRecord(emitted, c.keys[i], M.Floor(frames[j].ts, c.length))
  }

  /** The frames are in order, and the last is the last taken. */
  ghost predicate InTurn(frames: seq<Frame>, lastTs: Option<int>, clock: int) {
    && (forall i, j :: 0 <= i < j < |frames| ==> frames[i].ts <= frames[j].ts)
    && lastTs == (if frames == [] then None else Some(frames[|frames|-1].ts))
    && forall j :: 0 <= j < |frames| ==> frames[j].ts <= clock
  }

  /** Visits, open bucket and records are what the frames taken so far make them. */
  ghost predicate Faithful(c: Config, frames: seq<Frame>, bucket: Option<Bucket>, lastTs: Option<int>,
                           visits: map<Key, Visits>, emitted: seq<Record>, clock: int) {
    && c.Ok() && InTurn(frames, lastTs, clock) && AllTold(c, frames, visits) && AllRecorded(c, frames, emitted)
    && Covers(c, frames, if bucket.Some? then Some(bucket.value.start) else None, emitted)
    && (bucket.Some? ==>
          AllTallied(c, frames, bucket.value) && bucket.value.observed == Observed(c, frames, bucket.value.start))
    && (bucket.None? ==> forall j :: 0 <= j < |frames| ==> M.Floor(frames[j].ts, c.length) + c.length <= clock)
  }

  /** ... and so are those about to count frame `f`. */
  ghost predicate Ready(c: Config, frames: seq<Frame>, f: Frame, b: Bucket, visits: map<Key, Visits>,
                        emitted: seq<Record>)
    requires c.Ok()
  {
    && b.start == M.Floor(f.ts, c.length) && (forall j :: 0 <= j < |frames| ==> frames[j].ts <= f.ts)
    && AllTold(c, frames, visits) && AllTallied(c, frames, b) && AllRecorded(c, frames, emitted)
    && b.observed == Observed(c, frames + [f], b.start) && Covers(c, frames, Some(b.start), emitted)
  }

  lemma StayIs(c: Config, k: Key, frames: seq<Frame>, visits: Visits, t: nat)
    requires c.Ok() && Told(c, k, frames, visits)
    ensures forall d :: StaysFor(c, k, frames, t, d) <==> t in visits && DwellOf(visits[t]) == Some(d)
  {
    var H, n := Sights(c, k, t, frames), |frames|;
    VisitKeeps(c, H, n);
    hide VisitAfter, InsideAfter, EnteredAt, Sights, RunOf;
    assert At(visits, t) == VisitAfter(c, H, n);
  }

  lemma LongestIs(c: Config, k: Key, frames: seq<Frame>, visits: Visits, start: int, dwells: seq<int>, m: int)
    requires c.Ok() && Told(c, k, frames, visits) && Longest(m, dwells, visits)
    requires forall d :: d in dwells <==> Dwelt(c, k, frames, start, d)
    ensures LongestStay(c, k, frames, start, m)
  {
    hide Told, StaysFor, DwellOf, Dwelt;
    forall t: nat, d
      ensures StaysFor(c, k, frames, t, d) <==> t in visits && DwellOf(visits[t]) == Some(d)
    {
      StayIs(c, k, frames, visits, t);
    }
    if m in dwells {
      assert Dwelt(c, k, frames, start, m);
    } else if m != 0 {
      var t :| t in visits && DwellOf(visits[t]) == Some(m);
      assert StaysFor(c, k, frames, t, m);
    }
    forall d | Dwelt(c, k, frames, start, d) ensures d <= m {
      assert d in dwells;
    }
  }

  lemma MeanIs(s: seq<nat>)
    requires |s| > 0
    ensures Mean(s) * |s| as real == Sum(s) as real
  {
  }

  /** The record of a tally tells what the tally does. */
  lemma RecordTells(c: Config, frames: seq<Frame>, b: Bucket, visits: Visits, r: Record)
    requires c.Ok() && IsRecord(r, r.key, b, visits) && r.start == b.start
    requires TallyIs(c, r.key, frames, b.start, TallyOf(b, r.key)) && Told(c, r.key, frames, visits)
    requires r.observed == Observed(c, frames, b.start)
    ensures Recorded(c, frames, r)
  {
    var t := TallyOf(b, r.key);
    hide Told, Dwelt, Sizes, Entries, Exits, Observed, LongestStay, Longest, MaxCount, Mean, Sum, M.Floor;
    LongestIs(c, r.key, frames, visits, b.start, t.dwells, r.dwellMax);
    MeanIs(t.samples);
    assert Tells(c, frames, r);
    assert frames[..|frames|] == frames && LaterFrom(c, frames, |frames|, r.start);
  }

  /** The records of a closed bucket do. */
  lemma ClosedTell(c: Config, frames: seq<Frame>, b: Bucket, visits: map<Key, Visits>, emitted: seq<Record>,
                   records: seq<Record>)
    requires c.Ok() && AllTold(c, frames, visits) && AllTallied(c, frames, b) && AllRecorded(c, frames, emitted)
    requires b.observed == Observed(c, frames, b.start) && Closed(c, b, visits, records)
    requires forall i :: 0 <= i < |records| ==> records[i].observed == b.observed
    ensures AllRecorded(c, frames, emitted + records)
  {
    hide Recorded, TallyIs, Told, Observed, Longest, MaxCount, Mean;
    forall i | 0 <= i < |records| ensures Recorded(c, frames, records[i]) {
      RecordTells(c, frames, b, VisitsOf(visits, c.keys[i]), records[i]);
    }
  }

  lemma StillRecorded(c: Config, frames: seq<Frame>, f: Frame, r: Record)
    requires c.Ok() && Recorded(c, frames, r) && M.Floor(f.ts, c.length) > r.start
    ensures Recorded(c, frames + [f], r)
  {
    var all := frames + [f];
    hide Tells, M.Floor;
    var n :| 0 <= n <= |frames| && Tells(c, frames[..n], r) && LaterFrom(c, frames, n, r.start);
    assert all[..n] == frames[..n];
    assert LaterFrom(c, all, n, r.start);
  }

  // ---- a frame, and a close, keep it ----------------------------------------------------------

  lemma FrameTold(c: Config, frames: seq<Frame>, f: Frame, b: Bucket, before: map<Key, Visits>, next: Bucket,
                  after: map<Key, Visits>, k: Key)
    requires c.Ok() && FedAt(c, true, b, before, next, after, f.objects, f.ts, k)
    requires Told(c, k, frames, VisitsOf(before, k)) && b.start == M.Floor(f.ts, c.length)
    requires TallyIs(c, k, frames, b.start, TallyOf(b, k))
    ensures Told(c, k, frames + [f], VisitsOf(after, k)) && TallyIs(c, k, frames + [f], b.start, TallyOf(next, k))
  {
    hide Told, TallyIs, Turned, Tallied, Members, M.Floor, Timed, GoodTally, Inside;
    ToldNext(c, k, frames, f, VisitsOf(before, k), VisitsOf(after, k));
    TallyNext(c, k, frames, f, b.start, VisitsOf(before, k), TallyOf(b, k), TallyOf(next, k));
  }

  lemma FrameTells(c: Config, frames: seq<Frame>, f: Frame, b: Bucket, next: Bucket, before: map<Key, Visits>,
                   after: map<Key, Visits>)
    requires c.Ok() && Fed(c, |c.keys|, b, before, next, after, f.objects, f.ts)
    requires b.start == M.Floor(f.ts, c.length) && AllTold(c, frames, before) && AllTallied(c, frames, b)
    ensures next.start == b.start && next.observed == b.observed
    ensures AllTold(c, frames + [f], after) && AllTallied(c, frames + [f], next)
  {
    hide Told, TallyIs, FedAt, M.Floor, TallyOf;
    forall i | 0 <= i < |c.keys|
      ensures Told(c, c.keys[i], frames + [f], VisitsOf(after, c.keys[i]))
      ensures TallyIs(c, c.keys[i], frames + [f], b.start, TallyOf(next, c.keys[i]))
    {
      assert FedAt(c, i < |c.keys|, b, before, next, after, f.objects, f.ts, c.keys[i]);
      FrameTold(c, frames, f, b, before, next, after, c.keys[i]);
    }
  }

  lemma FrameRecorded(c: Config, frames: seq<Frame>, f: Frame, b: Bucket, emitted: seq<Record>)
    requires c.Ok() && AllRecorded(c, frames, emitted) && OverBy(c, emitted, b.start)
    requires b.start == M.Floor(f.ts, c.length)
    ensures AllRecorded(c, frames + [f], emitted)
  {
    hide Recorded, M.Floor;
    forall i | 0 <= i < |emitted| ensures Recorded(c, frames + [f], emitted[i]) {
      StillRecorded(c, frames, f, emitted[i]);
    }
  }

  lemma CoversFrame(c: Config, frames: seq<Frame>, f: Frame, start: int, emitted: seq<Record>)
    requires c.Ok() && Covers(c, frames, Some(start), emitted) && start == M.Floor(f.ts, c.length)
    ensures Covers(c, frames + [f], Some(start), emitted)
  {
    hide M.Floor, HasRecord;
  }

  lemma StillHas(a: seq<Record>, b: seq<Record>, k: Key, start: int)
    ensures HasRecord(a, k, start) || HasRecord(b, k, start) ==> HasRecord(a + b, k, start)
  {
    if HasRecord(a, k, start) {
      var i :| 0 <= i < |a| && a[i].key == k && a[i].start == start;
      assert (a + b)[i] == a[i];
    } else if HasRecord(b, k, start) {
      var i :| 0 <= i < |b| && b[i].key == k && b[i].start == start;
      assert (a + b)[|a| + i] == b[i];
    }
  }

  /** Closing the open bucket, each zone gets its record of it. */
  lemma CoversClose(c: Config, frames: seq<Frame>, b: Bucket, visits: map<Key, Visits>, emitted: seq<Record>,
                    records: seq<Record>)
    requires c.Ok() && Covers(c, frames, Some(b.start), emitted) && Closed(c, b, visits, records)
    ensures Covers(c, frames, None, emitted + records)
  {
    hide M.Floor, Longest, MaxCount, Mean;
    forall i, j | 0 <= i < |c.keys| && 0 <= j < |frames|
      ensures HasRecord(emitted + records, c.keys[i], M.Floor(frames[j].ts, c.length))
    {
      var start := M.Floor(frames[j].ts, c.length);
      assert IsRecord(records[i], c.keys[i], b, VisitsOf(visits, c.keys[i]));
      StillHas(emitted, records, c.keys[i], start);
    }
  }

  /** After the frame all is as before, with it. */
  lemma FrameFaithful(c: Config, frames: seq<Frame>, f: Frame, b: Bucket, next: Bucket, before: map<Key, Visits>,
                      after: map<Key, Visits>, lastTs: Option<int>, emitted: seq<Record>, clock: int)
    requires c.Ok() && Fed(c, |c.keys|, b, before, next, after, f.objects, f.ts)
    requires Ready(c, frames, f, b, before, emitted) && OverBy(c, emitted, b.start)
    requires InTurn(frames, lastTs, clock) && clock <= f.ts
    ensures Faithful(c, frames + [f], Some(next), Some(f.ts), after, emitted, f.ts)
  {
    hide AllTold, AllTallied, AllRecorded, OverBy, Observed, Fed, M.Floor, Covers;
    FrameTells(c, frames, f, b, next, before, after);
    FrameRecorded(c, frames, f, b, emitted);
    CoversFrame(c, frames, f, b.start, emitted);
    assert (frames + [f])[|frames|] == f;
  }

  lemma BeforeBucket(c: Config, frames: seq<Frame>, b: Bucket, ts: int)
    requires c.Ok() && frames != [] && b.start == M.Floor(frames[|frames|-1].ts, c.length)
    requires InTurn(frames, Some(frames[|frames|-1].ts), frames[|frames|-1].ts) && frames[|frames|-1].ts <= ts
    requires b.start != M.Floor(ts, c.length)
    ensures forall j :: 0 <= j < |frames| ==> M.Floor(frames[j].ts, c.length) < M.Floor(ts, c.length)
  {
    hide M.Floor;
    var last := frames[|frames|-1].ts;
    M.FloorMono(last, ts, c.length);
    forall j | 0 <= j < |frames| ensures M.Floor(frames[j].ts, c.length) < M.Floor(ts, c.length) {
      M.FloorMono(frames[j].ts, last, c.length);
    }
  }

  /** A new bucket has none of the frames. */
  lemma ReadyNew(c: Config, frames: seq<Frame>, f: Frame, b: Bucket, visits: map<Key, Visits>, emitted: seq<Record>)
    requires c.Ok() && b == Bucket(M.Floor(f.ts, c.length), map[], 0)
    requires forall j :: 0 <= j < |frames| ==> frames[j].ts <= f.ts && M.Floor(frames[j].ts, c.length) < b.start
    requires AllTold(c, frames, visits) && AllRecorded(c, frames, emitted) && Covers(c, frames, None, emitted)
    ensures Ready(c, frames, f, b, visits, emitted)
  {
    hide M.Floor, AllTold, AllRecorded, TallyIs, HasRecord;
    forall i | 0 <= i < |c.keys| ensures TallyIs(c, c.keys[i], frames, b.start, TallyOf(b, c.keys[i])) {
      NothingIn(c, c.keys[i], frames, b.start);
    }
    NothingIn(c, None, frames, b.start);
    var all := frames + [f];
    assert all[..|frames|] == frames && all[|frames|] == f;
    assert frames != [] ==> M.Floor(frames[|frames|-1].ts, c.length) != b.start;
  }

  lemma ObservedNext(c: Config, frames: seq<Frame>, f: Frame, start: int)
    requires c.Ok() && frames != [] && M.Floor(f.ts, c.length) == start == M.Floor(frames[|frames|-1].ts, c.length)
    ensures Observed(c, frames + [f], start) == Observed(c, frames, start) + Covered(c, frames[|frames|-1].ts, f.ts)
  {
    hide M.Floor;
    var all := frames + [f];
    assert all[..|frames|] == frames && all[|frames|] == f && all[|frames|-1] == frames[|frames|-1];
  }

  /** The open bucket goes on, with the time since the last frame. */
  lemma ReadySame(c: Config, frames: seq<Frame>, f: Frame, b: Bucket, last: int, visits: map<Key, Visits>,
                  emitted: seq<Record>, clock: int)
    requires Faithful(c, frames, Some(b), Some(last), visits, emitted, clock) && clock <= f.ts
    requires b.start == M.Floor(f.ts, c.length) == M.Floor(last, c.length)
    ensures Ready(c, frames, f, b.(observed := b.observed + Covered(c, last, f.ts)), visits, emitted)
  {
    hide M.Floor, AllTold, AllRecorded, TallyIs, Covered, Covers;
    ObservedNext(c, frames, f, b.start);
    hide Observed;
  }

  /** A closed bucket leaves its records. */
  lemma CloseFaithful(c: Config, frames: seq<Frame>, b: Bucket, last: int, visits: map<Key, Visits>,
                      emitted: seq<Record>, records: seq<Record>, clock: int)
    requires Faithful(c, frames, Some(b), Some(last), visits, emitted, clock) && Closed(c, b, visits, records)
    requires forall i :: 0 <= i < |records| ==> records[i].observed == b.observed
    ensures AllTold(c, frames, visits) && AllRecorded(c, frames, emitted + records) && InTurn(frames, Some(last), clock)
    ensures frames != [] && frames[|frames|-1].ts == last && Covers(c, frames, None, emitted + records)
  {
    ClosedTell(c, frames, b, visits, emitted, records);
    CoversClose(c, frames, b, visits, emitted, records);
    hide AllTold, AllTallied, AllRecorded, Observed, Covers;
  }

  lemma NothingFaithful(c: Config, frames: seq<Frame>, visits: map<Key, Visits>, lastTs: Option<int>,
                        emitted: seq<Record>, clock: int, ts: int)
    requires Faithful(c, frames, None, lastTs, visits, emitted, clock) && clock <= ts
    ensures AllTold(c, frames, visits) && AllRecorded(c, frames, emitted) && Covers(c, frames, None, emitted)
    ensures forall j :: 0 <= j < |frames| ==>
      frames[j].ts <= ts && M.Floor(frames[j].ts, c.length) < M.Floor(ts, c.length)
  {
    hide AllTold, AllRecorded, M.Floor, Covers;
    forall j | 0 <= j < |frames| ensures M.Floor(frames[j].ts, c.length) < M.Floor(ts, c.length) {
      M.FloorAgain(frames[j].ts, c.length);
      M.FloorNext(M.Floor(frames[j].ts, c.length), c.length);
      M.FloorMono(M.Floor(frames[j].ts, c.length) + c.length, ts, c.length);
    }
  }

  /** When nothing is open, the frames are of buckets over by the time. */
  lemma FlushFaithful(c: Config, frames: seq<Frame>, b: Bucket, last: int, visits: map<Key, Visits>,
                      emitted: seq<Record>, records: seq<Record>, clock: int, end: int)
    requires Faithful(c, frames, Some(b), Some(last), visits, emitted, clock) && Closed(c, b, visits, records)
    requires forall i :: 0 <= i < |records| ==> records[i].observed == b.observed
    requires b.start == M.Floor(last, c.length) && clock <= end && b.start + c.length <= end
    ensures Faithful(c, frames, None, Some(last), visits, emitted + records, end)
  {
    CloseFaithful(c, frames, b, last, visits, emitted, records, clock);
    hide AllTold, AllRecorded, AllTallied, M.Floor, Observed, Closed, Covers;
    forall j | 0 <= j < |frames| ensures M.Floor(frames[j].ts, c.length) + c.length <= end {
      M.FloorMono(frames[j].ts, last, c.length);
    }
  }

  class Accumulator {
    const c: Config
    var bucket: Option<Bucket>
    var done: seq<Record>
    var lastTs: Option<int>
    var visits: map<Key, Visits>

    /** All records ever closed, flushed or not; and the latest of the frames' times and of the ends of
        the buckets handed out. */
    ghost var emitted: seq<Record>
    ghost var clock: int

    /** All the frames taken. */
    ghost var frames: seq<Frame>

    ghost predicate Valid()
      reads this
    {
      && Inv(c, bucket, lastTs, visits, emitted, clock)
      && Faithful(c, frames, bucket, lastTs, visits, emitted, clock)
    }

    constructor (c: Config, ghost epoch: int)
      requires c.Ok()
      ensures Valid() && this.c == c && clock == epoch && emitted == [] && done == [] && bucket == None
      ensures frames == []
    {
      this.c := c;
      bucket, done, lastTs, visits := None, [], None, map[];
      emitted, clock, frames := [], epoch, [];
    }

    /** The records of a bucket, one a zone. */
    method Close(b: Bucket) returns (records: seq<Record>)
      requires forall i :: 0 <= i < |c.keys| ==> c.keys[i] in b.tallies && |b.tallies[c.keys[i]].samples| > 0
      ensures Closed(c, b, visits, records)
    {
      records := [];
      hide MaxCount, Mean, Longest;
      for i := 0 to |c.keys|
        invariant |records| == i && forall j :: 0 <= j < i ==>
          IsRecord(records[j], c.keys[j], b, VisitsOf(visits, c.keys[j])) &&
            records[j].observed == (if b.observed < c.length then b.observed else c.length)
      {
        var t := b.tallies[c.keys[i]];
        var dwell := LongestDwell(t.dwells, VisitsOf(visits, c.keys[i]));
        var r := Record(c.keys[i], b.start, MaxCount(t.samples), Mean(t.samples), t.entries, t.exits, dwell,
                        if b.observed < c.length then b.observed else c.length);
        records := records + [r];
      }
    }

    /** Counts one frame into its bucket, closing the bucket before it when that is over. */
    method Feed(objects: seq<Object>, ts: int)
      requires Inv(c, bucket, lastTs, visits, emitted, clock) && clock <= ts
      requires Faithful(c, frames, bucket, lastTs, visits, emitted, clock)
      modifies `bucket, `done, `lastTs, `visits, `emitted, `clock, `frames
      ensures Inv(c, bucket, lastTs, visits, emitted, clock) && clock == ts && bucket.Some?
      ensures Faithful(c, frames, bucket, lastTs, visits, emitted, clock)
      ensures frames == old(frames) + [Frame(objects, ts)]
      ensures bucket.value.start == M.Floor(ts, c.length)
      ensures old(emitted) <= emitted
    {
      hide *;
      ghost var f, was, wasLast, wasClock := Frame(objects, ts), frames, lastTs, clock;
      Opening(c, frames, bucket, lastTs, visits, emitted, clock);
      var b := Open(ts, f);
      OpenedParts(c, b, visits, emitted, ts);
      ghost var before := visits;
      var next := Count(b, objects, ts);
      FeedKeeps(c, b, next, before, visits, emitted, objects, ts);
      FrameFaithful(c, was, f, b, next, before, visits, wasLast, emitted, wasClock);
      FedStart(c, b, before, next, visits, objects, ts);
      lastTs := Some(ts);
      bucket := Some(next);
      clock, frames := ts, frames + [f];
    }

    /** The bucket for a frame at `ts`, the one before closed when it is over. */
    method Open(ts: int, ghost f: Frame) returns (b: Bucket)
      requires Inv(c, bucket, lastTs, visits, emitted, clock) && clock <= ts == f.ts
      requires Faithful(c, frames, bucket, lastTs, visits, emitted, clock)
      modifies `done, `emitted
      ensures c.Ok() && Opened(c, b, visits, emitted, ts) && old(emitted) <= emitted
      ensures Ready(c, frames, f, b, visits, emitted)
    {
      hide *;
      OpenFacts(c, bucket, lastTs, visits, emitted, clock);
      TimedLater(c, visits, clock, ts);
      var start := M.Floor(ts, c.length);
      if bucket.Some? && start == bucket.value.start {
        b := bucket.value;
        if M.Floor(lastTs.value, c.length) == start {
          b := b.(observed := b.observed + Covered(c, lastTs.value, ts));
        }
        OpenSame(c, bucket.value, lastTs.value, visits, emitted, clock, ts);
        ReadySame(c, frames, f, bucket.value, lastTs.value, visits, emitted, clock);
        return;
      }
      if bucket.Some? {
        var records := Close(bucket.value);
        CloseKeeps(c, bucket.value, lastTs.value, visits, emitted, records, clock);
        CloseFaithful(c, frames, bucket.value, lastTs.value, visits, emitted, records, clock);
        BucketOver(c, bucket.value, lastTs.value, emitted + records, ts);
        BeforeNext(c, frames, bucket.value, lastTs.value, clock, ts);
        done, emitted := done + records, emitted + records;
      } else {
        NothingOpen(c, emitted, visits, lastTs, clock);
        NothingFaithful(c, frames, visits, lastTs, emitted, clock, ts);
        StartsAfter(c, emitted, clock, ts);
      }
      OpenNew(c, visits, emitted, ts);
      b := Bucket(start, map[], 0);
      ReadyNew(c, frames, f, b, visits, emitted);
    }

    /** The frame's samples and visits, zone by zone. */
    method Count(b: Bucket, objects: seq<Object>, ts: int) returns (next: Bucket)
      requires c.Ok() && AllTimed(c, visits, ts)
      requires forall i :: 0 <= i < |c.keys| ==> GoodTally(TallyOf(b, c.keys[i]))
      modifies `visits
      ensures Fed(c, |c.keys|, b, old(visits), next, visits, objects, ts)
    {
      ghost var before := visits;
      next := b;
      assert Fed(c, 0, b, before, next, visits, objects, ts);
      hide Turned, Tallied, Timed, GoodTally, Inside, Members;
      for n := 0 to |c.keys|
        invariant Fed(c, n, b, before, next, visits, objects, ts)
      {
        var k := c.keys[n];
        assert FedAt(c, n < n, b, before, next, visits, objects, ts, k);
        var members := Members(c, objects, k);
        var t := TallyOf(next, k);
        var w, u := VisitStep(c, VisitsOf(visits, k), SampleIn(t, |members|), members, ts);
        SampledAlike(c, VisitsOf(visits, k), members + VisitsOf(visits, k).Keys, members, ts, t, u);
        FeedOne(c, n, b, before, next, visits, objects, ts, w, u);
        next := next.(tallies := next.tallies[k := u]);
        visits := visits[k := w];
      }
    }

    /** Closes the open bucket when it is over, and hands out the completed records.  What comes next
        must not be dated before the end of a bucket handed out. */
    method Flush(now: int) returns (out: seq<Record>)
      requires Valid()
      modifies `bucket, `done, `emitted, `clock
      ensures Valid() && done == [] && old(emitted) <= emitted
      ensures old(done) <= out && emitted == old(emitted) + out[|old(done)|..]
      ensures if bucket == old(bucket) then clock == old(clock)
              else bucket.None? && clock == Later(old(clock), old(bucket).value.start + c.length)
      ensures bucket.Some? ==> now < bucket.value.start + c.length
    {
      hide Conserved, Sound, AllTimed, Closed, M.Floor, Faithful;
      if bucket.Some? && now >= bucket.value.start + c.length {
        var records := Close(bucket.value);
        ghost var end := Later(clock, bucket.value.start + c.length);
        LaterInv(c, bucket, lastTs, visits, emitted, clock, end);
        CloseKeeps(c, bucket.value, lastTs.value, visits, emitted, records, end);
        FlushFaithful(c, frames, bucket.value, lastTs.value, visits, emitted, records, clock, end);
        done, emitted := done + records, emitted + records;
        bucket, clock := None, end;
      }
      out := done;
      done := [];
    }
  }

  lemma OpenFacts(c: Config, bucket: Option<Bucket>, lastTs: Option<int>, visits: map<Key, Visits>,
                  emitted: seq<Record>, clock: int)
    requires Inv(c, bucket, lastTs, visits, emitted, clock)
    ensures c.Ok() && c.length > 0 && AllTimed(c, visits, clock)
    ensures bucket.Some? ==>
      && lastTs.Some? && lastTs.value <= clock && bucket.value.start == M.Floor(lastTs.value, c.length)
      && forall i :: 0 <= i < |c.keys| ==>
           c.keys[i] in bucket.value.tallies && |bucket.value.tallies[c.keys[i]].samples| > 0
  {
    hide Conserved, Sound, AllTimed, OverBy, M.Floor;
  }

  function Later(a: int, b: int): int {
    if a < b then b else a
  }

  lemma LaterInv(c: Config, bucket: Option<Bucket>, lastTs: Option<int>, visits: map<Key, Visits>,
                 emitted: seq<Record>, clock: int, now: int)
    requires Inv(c, bucket, lastTs, visits, emitted, clock) && clock <= now
    ensures Inv(c, bucket, lastTs, visits, emitted, now)
  {
    TimedLater(c, visits, clock, now);
    hide Conserved, Sound, AllTimed, Counted, M.Floor;
  }

  function SampleIn(t: Tally, n: nat): (u: Tally)
    ensures u == t.(samples := t.samples + [n])
    ensures GoodTally(t) ==> GoodTally(u)
  {
    t.(samples := t.samples + [n])
  }

  /** A sample counts no turn. */
  lemma SampledAlike(c: Config, visits: Visits, tracks: set<nat>, present: set<nat>, ts: int, t: Tally, u: Tally)
    requires Tallied(c, visits, tracks, present, ts, SampleIn(t, |present|), u)
    ensures Tallied(c, visits, tracks, present, ts, t, u)
  {
    hide Turn, Entering, Leaving;
  }

  /** A boundary passed by all records is passed by the next bucket's start. */
  lemma StartsAfter(c: Config, emitted: seq<Record>, clock: int, ts: int)
    requires c.Ok() && OverBy(c, emitted, clock) && clock <= ts && Sound(c, emitted)
    ensures OverBy(c, emitted, M.Floor(ts, c.length))
  {
    hide M.Floor;
    forall i | 0 <= i < |emitted| ensures emitted[i].start + c.length <= M.Floor(ts, c.length) {
      M.FloorNext(emitted[i].start, c.length);
      M.FloorMono(emitted[i].start + c.length, ts, c.length);
    }
  }

  /** The bucket that is to count a frame at `ts`. */
  ghost predicate Opened(c: Config, b: Bucket, visits: map<Key, Visits>, emitted: seq<Record>, ts: int)
    requires c.Ok()
  {
    && Conserved(c, emitted, Some(b), visits) && Sound(c, emitted) && OverBy(c, emitted, b.start)
    && b.start == M.Floor(ts, c.length) && 0 <= b.observed <= ts - b.start && AllTimed(c, visits, ts)
    && forall i :: 0 <= i < |c.keys| ==> GoodTally(TallyOf(b, c.keys[i]))
  }

  lemma TimedLater(c: Config, visits: map<Key, Visits>, now: int, ts: int)
    requires AllTimed(c, visits, now) && now <= ts
    ensures AllTimed(c, visits, ts)
  {
    forall i | 0 <= i < |c.keys| ensures Timed(VisitsOf(visits, c.keys[i]), ts) {
      assert Timed(VisitsOf(visits, c.keys[i]), now);
    }
  }

  /** An empty bucket counts nothing yet. */
  lemma OpenNew(c: Config, visits: map<Key, Visits>, emitted: seq<Record>, ts: int)
    requires c.Ok() && Conserved(c, emitted, None, visits) && Sound(c, emitted) && AllTimed(c, visits, ts)
    requires OverBy(c, emitted, M.Floor(ts, c.length))
    ensures Opened(c, Bucket(M.Floor(ts, c.length), map[], 0), visits, emitted, ts)
  {
    hide Total, Inside, Sound, OverBy, AllTimed;
    var b := Bucket(M.Floor(ts, c.length), map[], 0);
    forall i | 0 <= i < |c.keys| ensures ConservedAt(emitted, Some(b), visits, c.keys[i]) {
      assert ConservedAt(emitted, None, visits, c.keys[i]);
    }
  }

  /** The time since the last frame, as far as it counts as observed. */
  function Covered(c: Config, last: int, ts: int): int {
    var dt := if ts - last > 0 then ts - last else 0;
    if dt < c.maxGap then dt else c.maxGap
  }

  lemma OpenSame(c: Config, b: Bucket, last: int, visits: map<Key, Visits>, emitted: seq<Record>, clock: int, ts: int)
    requires Inv(c, Some(b), Some(last), visits, emitted, clock) && clock <= ts && b.start == M.Floor(ts, c.length)
    ensures Opened(c, b.(observed := b.observed + Covered(c, last, ts)), visits, emitted, ts)
  {
    hide Total, Inside, Sound, OverBy;
    TimedLater(c, visits, clock, ts);
    hide AllTimed;
    var next := b.(observed := b.observed + Covered(c, last, ts));
    forall i | 0 <= i < |c.keys| ensures ConservedAt(emitted, Some(next), visits, c.keys[i]) {
      assert ConservedAt(emitted, Some(b), visits, c.keys[i]);
    }
  }

  /** The bucket before is over by the start of the one that counts `ts`. */
  lemma BucketOver(c: Config, b: Bucket, last: int, emitted: seq<Record>, ts: int)
    requires c.Ok() && b.start == M.Floor(last, c.length) && last <= ts && b.start != M.Floor(ts, c.length)
    requires OverBy(c, emitted, b.start + c.length)
    ensures OverBy(c, emitted, M.Floor(ts, c.length))
  {
    M.FloorMono(last, ts, c.length);
    if last >= M.Floor(ts, c.length) {
      M.FloorAgain(ts, c.length);
      M.FloorMono(M.Floor(ts, c.length), last, c.length);
    } else {
      M.FloorBefore(last, ts, c.length);
    }
  }

  lemma NothingOpen(c: Config, emitted: seq<Record>, visits: map<Key, Visits>, lastTs: Option<int>, clock: int)
    requires Inv(c, None, lastTs, visits, emitted, clock)
    ensures c.Ok() && Conserved(c, emitted, None, visits) && Sound(c, emitted) && OverBy(c, emitted, clock)
  {
  }

  lemma OpenedParts(c: Config, b: Bucket, visits: map<Key, Visits>, emitted: seq<Record>, ts: int)
    requires c.Ok() && Opened(c, b, visits, emitted, ts)
    ensures Conserved(c, emitted, Some(b), visits) && Sound(c, emitted) && OverBy(c, emitted, b.start)
    ensures AllTimed(c, visits, ts)
    ensures b.start == M.Floor(ts, c.length) && 0 <= b.observed <= ts - b.start
    ensures forall i :: 0 <= i < |c.keys| ==> GoodTally(TallyOf(b, c.keys[i]))
  {
  }

  lemma FedStart(c: Config, b: Bucket, before: map<Key, Visits>, next: Bucket, after: map<Key, Visits>,
                 objects: seq<Object>, ts: int)
    requires Fed(c, |c.keys|, b, before, next, after, objects, ts)
    ensures next.start == b.start
  {
    hide FedAt;
  }

  lemma Opening(c: Config, frames: seq<Frame>, bucket: Option<Bucket>, lastTs: Option<int>, visits: map<Key, Visits>,
                emitted: seq<Record>, clock: int)
    requires Faithful(c, frames, bucket, lastTs, visits, emitted, clock)
    ensures c.Ok() && InTurn(frames, lastTs, clock)
  {
    hide AllTold, AllTallied, AllRecorded, InTurn, Covers;
  }

  /** The frames are of buckets before the one that counts `ts`. */
  lemma BeforeNext(c: Config, frames: seq<Frame>, b: Bucket, last: int, clock: int, ts: int)
    requires c.Ok() && frames != [] && frames[|frames|-1].ts == last && InTurn(frames, Some(last), clock)
    requires b.start == M.Floor(last, c.length) && clock <= ts && b.start != M.Floor(ts, c.length)
    ensures forall j :: 0 <= j < |frames| ==>
      frames[j].ts <= ts && M.Floor(frames[j].ts, c.length) < M.Floor(ts, c.length)
  {
    hide M.Floor;
    BeforeBucket(c, frames, b, ts);
  }
}

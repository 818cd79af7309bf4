/** The people in one zone of a camera, frame by frame: who is confirmed inside, who enters and leaves.

    A visit is a debounce; `EntersAt` and `LeavesAt` say of the frames alone when it opens and closes, and
    `TurnsExactly` that they agree. */
module Presence {
  import opened Wrappers

  /** A zone, or None for the whole view. */
  type Key = Option<nat>

  datatype Visit = Visit(inside: bool, streakIn: nat, streakOut: nat, start: Option<int>, lastIn: Option<int>)

  const NEW := Visit(false, 0, 0, None, None)

  /** What one zone has in the open bucket. */
  datatype Tally = Tally(samples: seq<nat>, entries: nat, exits: nat, dwells: seq<int>)

  datatype Object = Object(class_: nat, track: nat, zones: set<nat>)

  datatype Config = Config(keys: seq<Key>, length: int, class_: nat, maxGap: int, confirm: nat)
  {
    predicate Ok() {
      0 < length && 0 <= maxGap && confirm >= 1 && forall i, j :: 0 <= i < j < |keys| ==> keys[i] != keys[j]
    }
  }

  // ---- one track in one zone ------------------------------------------------------------------

  datatype Change = Enters | Leaves(dwell: int) | Same

  /** One frame: the track is in the zone or not. */
  function Turn(c: Config, v: Option<Visit>, present: bool, ts: int): (Option<Visit>, Change) {
    var u := if v.Some? then v.value else NEW;
    if present then
      var t := u.(streakOut := 0, streakIn := u.streakIn + 1, lastIn := Some(ts));
      if !t.inside && t.streakIn >= c.confirm then (Some(t.(inside := true, start := Some(ts))), Enters)
      else (Some(t), Same)
    else
      var t := u.(streakIn := 0, streakOut := u.streakOut + 1);
      if t.streakOut >= c.confirm then
        var stay := if t.start.Some? && t.lastIn.Some? then t.lastIn.value - t.start.value else 0;
        (None, if t.inside then Leaves(stay) else Same)
      else (Some(t), Same)
  }

  /** Out of time order a dwell can be negative, which no record may carry. */
  lemma BackwardsDwell(c: Config)
    requires c.confirm == 1
    ensures Turn(c, Turn(c, Turn(c, None, true, 10).0, true, 5).0, false, 6).1 == Leaves(-5)
  {
  }

  type Visits = map<nat, Visit>

  function At(visits: Visits, track: nat): Option<Visit> {
    if track in visits then Some(visits[track]) else None
  }

  function Put(visits: Visits, track: nat, v: Option<Visit>): Visits {
    if v.Some? then visits[track := v.value] else visits - {track}
  }

  /** The tracks confirmed inside a zone. */
  function Inside(visits: Visits): set<nat> {
    set t | t in visits && visits[t].inside
  }

  /** A visit confirmed inside has a start, no later than when it was last seen in. */
  ghost predicate Timed(visits: Visits, now: int) {
    forall t :: t in visits && visits[t].inside ==>
      visits[t].start.Some? && visits[t].lastIn.Some? && visits[t].start.value <= visits[t].lastIn.value <= now
  }

  ghost predicate GoodTally(b: Tally) {
    forall d :: d in b.dwells ==> d >= 0
  }

  function Apply(b: Tally, change: Change): Tally {
    match change
    case Enters => b.(entries := b.entries + 1)
    case Leaves(dwell) => b.(exits := b.exits + 1, dwells := b.dwells + [dwell])
    case Same => b
  }

  lemma InsidePut(visits: Visits, track: nat, v: Option<Visit>)
    ensures forall t :: t in Inside(Put(visits, track, v)) <==>
      if t == track then v.Some? && v.value.inside else t in Inside(visits)
    ensures track in Inside(visits) <==> track in visits && visits[track].inside
  {
  }

  lemma {:induction false} OneTurn(c: Config, visits: Visits, track: nat, present: bool, ts: int, b: Tally)
    requires Timed(visits, ts) && GoodTally(b)
    ensures var (v, change) := Turn(c, At(visits, track), present, ts);
            var after, next := Put(visits, track, v), Apply(b, change);
            && (next.entries - next.exits) - (b.entries - b.exits) == |Inside(after)| - |Inside(visits)|
            && Timed(after, ts) && GoodTally(next) && next.samples == b.samples
  {
    var (v, change) := Turn(c, At(visits, track), present, ts);
    var after := Put(visits, track, v);
    var I, J := Inside(visits), Inside(after);
    InsidePut(visits, track, v);
    hide Inside;
    if change.Enters? {
      assert J == I + {track};
    } else if change.Leaves? {
      assert I == J + {track};
    } else {
      assert J == I;
    }
  }

  /** The tracks seen in a zone, or known there, have had their turn. */
  ghost predicate Turned(c: Config, visits: Visits, after: Visits, tracks: set<nat>, present: set<nat>, ts: int) {
    forall t :: At(after, t) == (if t in tracks then Turn(c, At(visits, t), t in present, ts).0 else At(visits, t))
  }

  /** Those of the tracks whose turn enters them, and those whose turn ends a visit. */
  ghost function Entering(c: Config, visits: Visits, tracks: set<nat>, present: set<nat>, ts: int): set<nat> {
    set t | t in tracks && Turn(c, At(visits, t), t in present, ts).1 == Enters
  }

  ghost function Leaving(c: Config, visits: Visits, tracks: set<nat>, present: set<nat>, ts: int): set<nat> {
    set t | t in tracks && Turn(c, At(visits, t), t in present, ts).1.Leaves?
  }

  /** Their turns are counted, and their dwells listed. */
  ghost predicate Tallied(c: Config, visits: Visits, tracks: set<nat>, present: set<nat>, ts: int, b: Tally,
                          next: Tally) {
    && next.entries == b.entries + |Entering(c, visits, tracks, present, ts)|
    && next.exits == b.exits + |Leaving(c, visits, tracks, present, ts)|
    && forall d :: d in next.dwells <==>
         d in b.dwells || exists t :: t in tracks && Turn(c, At(visits, t), t in present, ts).1 == Leaves(d)
  }

  lemma NoneTallied(c: Config, visits: Visits, present: set<nat>, ts: int, b: Tally)
    ensures Tallied(c, visits, {}, present, ts, b, b)
  {
    assert Entering(c, visits, {}, present, ts) == {} && Leaving(c, visits, {}, present, ts) == {};
  }

  lemma SidesOne(c: Config, visits: Visits, done: set<nat>, present: set<nat>, ts: int, t: nat)
    requires t !in done
    ensures var change := Turn(c, At(visits, t), t in present, ts).1;
            && |Entering(c, visits, done + {t}, present, ts)| ==
                 |Entering(c, visits, done, present, ts)| + (if change.Enters? then 1 else 0)
            && |Leaving(c, visits, done + {t}, present, ts)| ==
                 |Leaving(c, visits, done, present, ts)| + (if change.Leaves? then 1 else 0)
  {
    hide Turn;
    var change := Turn(c, At(visits, t), t in present, ts).1;
    var E, L := Entering(c, visits, done, present, ts), Leaving(c, visits, done, present, ts);
    assert Entering(c, visits, done + {t}, present, ts) == if change.Enters? then E + {t} else E;
    assert Leaving(c, visits, done + {t}, present, ts) == if change.Leaves? then L + {t} else L;
  }

  lemma TalliedOne(c: Config, visits: Visits, done: set<nat>, present: set<nat>, ts: int, b: Tally, next: Tally, t: nat)
    requires Tallied(c, visits, done, present, ts, b, next) && t !in done
    ensures Tallied(c, visits, done + {t}, present, ts, b, Apply(next, Turn(c, At(visits, t), t in present, ts).1))
  {
    hide Turn, Entering, Leaving, At;
    SidesOne(c, visits, done, present, ts, t);
    var change := Turn(c, At(visits, t), t in present, ts).1;
    var u := Apply(next, change);
    forall d ensures d in u.dwells <==>
      d in b.dwells || exists x :: x in done + {t} && Turn(c, At(visits, x), x in present, ts).1 == Leaves(d)
    {
      assert d in u.dwells <==> d in next.dwells || change == Leaves(d);
    }
  }

  /** One frame in one zone. */
  method VisitStep(c: Config, visits: Visits, b: Tally, present: set<nat>, ts: int) returns (after: Visits, next: Tally)
    requires Timed(visits, ts) && GoodTally(b)
    ensures Timed(after, ts) && GoodTally(next) && next.samples == b.samples
    ensures (next.entries - next.exits) - (b.entries - b.exits) == |Inside(after)| - |Inside(visits)|
    ensures Turned(c, visits, after, present + visits.Keys, present, ts)
    ensures Tallied(c, visits, present + visits.Keys, present, ts, b, next)
  {
    NoTurns(c, visits, present, ts);
    NoneTallied(c, visits, present, ts, b);
    hide *;
    after, next := visits, b;
    var rest := present + visits.Keys;
    ghost var done: set<nat> := {};
    while rest != {}
      invariant rest + done == present + visits.Keys && rest !! done && next.samples == b.samples
      invariant Timed(after, ts) && GoodTally(next)
      invariant (next.entries - next.exits) - (b.entries - b.exits) == |Inside(after)| - |Inside(visits)|
      invariant Turned(c, visits, after, done, present, ts)
      invariant Tallied(c, visits, done, present, ts, b, next)
      decreases |rest|
    {
      var track :| track in rest;
      var (v, change) := Turn(c, At(after, track), track in present, ts);
      OneTurn(c, after, track, track in present, ts, next);
      TurnedOne(c, visits, after, done, present, ts, track);
      TalliedOne(c, visits, done, present, ts, b, next, track);
      after, next := Put(after, track, v), Apply(next, change);
      Moved(rest, done, track);
      rest, done := rest - {track}, done + {track};
    }
    assert done == present + visits.Keys;
  }

  lemma Moved(rest: set<nat>, done: set<nat>, t: nat)
    requires t in rest && rest !! done
    ensures t !in done && (rest - {t}) + (done + {t}) == rest + done && rest - {t} !! done + {t}
    ensures |rest - {t}| < |rest|
  {
  }

  lemma NoTurns(c: Config, visits: Visits, present: set<nat>, ts: int)
    ensures Turned(c, visits, visits, {}, present, ts)
  {
  }

  lemma TurnedOne(c: Config, visits: Visits, after: Visits, done: set<nat>, present: set<nat>, ts: int, track: nat)
    requires Turned(c, visits, after, done, present, ts) && track !in done
    ensures At(after, track) == At(visits, track)
    ensures Turned(c, visits, Put(after, track, Turn(c, At(after, track), track in present, ts).0), done + {track},
                   present, ts)
  {
    hide Turn;
    var v := Turn(c, At(after, track), track in present, ts).0;
    assert At(after, track) == At(visits, track);
    assert forall t :: t != track ==> At(Put(after, track, v), t) == At(after, t);
  }

  // ---- said of the frames alone ---------------------------------------------------------------

  /** One frame, to one track: it shows the track in the zone, or not. */
  datatype Sight = Sight(present: bool, ts: int)

  /** The last `m` of the first `n` frames show the track, or do not, as `p` says. */
  ghost predicate Steady(H: seq<Sight>, n: nat, m: nat, p: bool)
    requires n <= |H|
  {
    m <= n && forall j :: n - m <= j < n ==> H[j].present == p
  }

  /** It enters at frame `n`: it was not inside, and the last `confirm` frames, this one included, show it. */
  ghost predicate EntersAt(c: Config, H: seq<Sight>, n: nat)
    requires n < |H|
    decreases n, 1
  {
    !InsideAfter(c, H, n) && Steady(H, n + 1, c.confirm, true)
  }

  /** It leaves at frame `n`: it was inside, and none of the last `confirm` frames shows it. */
  ghost predicate LeavesAt(c: Config, H: seq<Sight>, n: nat)
    requires n < |H|
    decreases n, 1
  {
    InsideAfter(c, H, n) && Steady(H, n + 1, c.confirm, false)
  }

  /** It is inside after the first `n` frames: it entered, and has not left since. */
  ghost predicate InsideAfter(c: Config, H: seq<Sight>, n: nat)
    requires n <= |H|
    decreases n, 0
  {
    n > 0 && (EntersAt(c, H, n - 1) || (InsideAfter(c, H, n - 1) && !LeavesAt(c, H, n - 1)))
  }

  /** The frame at which a track that is inside entered. */
  ghost function EnteredAt(c: Config, H: seq<Sight>, n: nat): (e: nat)
    requires n <= |H| && InsideAfter(c, H, n)
    ensures e < n
  {
    if EntersAt(c, H, n - 1) then n - 1 else EnteredAt(c, H, n - 1)
  }

  /** The last of the first `n` frames to show it; -1 if none does. */
  function LastShown(H: seq<Sight>, n: nat): (l: int)
    requires n <= |H|
    ensures -1 <= l < n && (l >= 0 ==> H[l].present) && forall j :: l < j < n ==> !H[j].present
  {
    if n == 0 then -1 else if H[n-1].present then n - 1 else LastShown(H, n - 1)
  }

  /** How long it has been inside: from the frame at which it entered to the last that shows it. */
  ghost function Stay(c: Config, H: seq<Sight>, n: nat): int
    requires n <= |H| && InsideAfter(c, H, n)
  {
    var l := LastShown(H, n);
    (if l >= 0 then H[l].ts else H[EnteredAt(c, H, n)].ts) - H[EnteredAt(c, H, n)].ts
  }

  // ---- the two agree --------------------------------------------------------------------------

  /** A track that is neither shown nor known takes no turn. */
  function Step(c: Config, v: Option<Visit>, s: Sight): (Option<Visit>, Change) {
    if s.present || v.Some? then Turn(c, v, s.present, s.ts) else (v, Same)
  }

  function VisitAfter(c: Config, H: seq<Sight>, n: nat): Option<Visit>
    requires n <= |H|
  {
    if n == 0 then None else Step(c, VisitAfter(c, H, n - 1), H[n-1]).0
  }

  /** What frame `n` changes. */
  function ChangeAt(c: Config, H: seq<Sight>, n: nat): Change
    requires n < |H|
  {
    Step(c, VisitAfter(c, H, n), H[n]).1
  }

  /** How many of the first `n` frames, back from the last, show it, or do not. */
  function RunOf(H: seq<Sight>, n: nat, p: bool): (r: nat)
    requires n <= |H|
    ensures r <= n && (forall j :: n - r <= j < n ==> H[j].present == p) && (r < n ==> H[n-r-1].present != p)
  {
    if n == 0 || H[n-1].present != p then 0 else RunOf(H, n - 1, p) + 1
  }

  lemma SteadyRun(H: seq<Sight>, n: nat, m: nat, p: bool)
    requires n <= |H|
    ensures Steady(H, n, m, p) <==> m <= RunOf(H, n, p)
  {
    hide RunOf;
  }

  /** What a visit keeps of the frames. */
  ghost predicate Keeps(c: Config, H: seq<Sight>, n: nat, v: Option<Visit>)
    requires n <= |H|
  {
    && (InsideAfter(c, H, n) <==> v.Some? && v.value.inside)
    && (v.None? ==> RunOf(H, n, true) == 0)
    && (v.Some? ==> v.value.streakIn == RunOf(H, n, true) && v.value.streakOut == RunOf(H, n, false)
                    && LastShown(H, n) >= 0 && v.value.lastIn == Some(H[LastShown(H, n)].ts))
    && (InsideAfter(c, H, n) ==> v.value.start == Some(H[EnteredAt(c, H, n)].ts))
  }

  lemma StepChanges(c: Config, H: seq<Sight>, n: nat, v: Option<Visit>)
    requires c.Ok() && n < |H| && Keeps(c, H, n, v)
    ensures var change := Step(c, v, H[n]).1;
            && (change == Enters <==> EntersAt(c, H, n)) && (change.Leaves? <==> LeavesAt(c, H, n))
            && (LeavesAt(c, H, n) ==> change.dwell == Stay(c, H, n))
  {
    SteadyRun(H, n + 1, c.confirm, true);
    SteadyRun(H, n + 1, c.confirm, false);
    hide Steady;
  }

  lemma InsideStep(c: Config, H: seq<Sight>, n: nat)
    requires n < |H|
    ensures InsideAfter(c, H, n + 1) <==> EntersAt(c, H, n) || (InsideAfter(c, H, n) && !LeavesAt(c, H, n))
    ensures EntersAt(c, H, n) ==> !InsideAfter(c, H, n) && EnteredAt(c, H, n + 1) == n
    ensures InsideAfter(c, H, n) && !LeavesAt(c, H, n) ==> EnteredAt(c, H, n + 1) == EnteredAt(c, H, n)
  {
    hide Steady;
  }

  lemma StepKeeps(c: Config, H: seq<Sight>, n: nat, v: Option<Visit>)
    requires c.Ok() && n < |H| && Keeps(c, H, n, v)
    ensures Keeps(c, H, n + 1, Step(c, v, H[n]).0)
  {
    StepChanges(c, H, n, v);
    InsideStep(c, H, n);
    hide EntersAt, LeavesAt, InsideAfter, EnteredAt, Steady;
  }

  lemma {:induction false} VisitKeeps(c: Config, H: seq<Sight>, n: nat)
    requires c.Ok() && n <= |H|
    ensures Keeps(c, H, n, VisitAfter(c, H, n))
  {
    hide Keeps, Step;
    if n > 0 {
      VisitKeeps(c, H, n - 1);
      StepKeeps(c, H, n - 1, VisitAfter(c, H, n - 1));
    } else {
      NothingKept(c, H);
    }
  }

  lemma NothingKept(c: Config, H: seq<Sight>)
    ensures Keeps(c, H, 0, None)
  {
  }

  /** A track enters and leaves, by its turns, exactly when the frames say so; the dwell runs from the frame at
      which it entered to the last that shows it. */
  lemma TurnsExactly(c: Config, H: seq<Sight>, n: nat)
    requires c.Ok() && n < |H|
    ensures ChangeAt(c, H, n) == Enters <==> EntersAt(c, H, n)
    ensures ChangeAt(c, H, n).Leaves? <==> LeavesAt(c, H, n)
    ensures LeavesAt(c, H, n) ==> ChangeAt(c, H, n).dwell == Stay(c, H, n)
  {
    VisitKeeps(c, H, n);
    hide Keeps, Step, EntersAt, LeavesAt, VisitAfter;
    StepChanges(c, H, n, VisitAfter(c, H, n));
  }
}

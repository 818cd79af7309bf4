/** What the frames of a camera put into a bucket, zone by zone. */
module Counting {
  import opened Wrappers
  import opened Presence
  import M = Metrics

  datatype Frame = Frame(objects: seq<Object>, ts: int)

  /** The tracks of the counted class in each zone of a frame. */
  function Members(c: Config, objects: seq<Object>, k: Key): set<nat> {
    set i | 0 <= i < |objects| && objects[i].class_ == c.class_ &&
      (k == None || k.value in objects[i].zones) :: objects[i].track
  }

  /** The frame shows the track in the zone. */
  ghost predicate Shows(c: Config, f: Frame, k: Key, t: nat) {
    exists i :: 0 <= i < |f.objects| && f.objects[i].track == t && f.objects[i].class_ == c.class_ &&
      (k.Some? ==> k.value in f.objects[i].zones)
  }

  lemma MembersShow(c: Config, f: Frame, k: Key)
    ensures forall t :: t in Members(c, f.objects, k) <==> Shows(c, f, k, t)
  {
  }

  /** All that the frames say of one track in one zone. */
  ghost function Sights(c: Config, k: Key, t: nat, frames: seq<Frame>): (H: seq<Sight>)
    ensures |H| == |frames| && forall n :: 0 <= n < |H| ==> H[n] == Sight(Shows(c, frames[n], k, t), frames[n].ts)
  {
    if frames == [] then []
    else
      var n := |frames| - 1;
      Sights(c, k, t, frames[..n]) + [Sight(Shows(c, frames[n], k, t), frames[n].ts)]
  }

  // ---- said of the frames ---------------------------------------------------------------------

  /** The tracks any frame shows in the zone. */
  ghost function Everyone(c: Config, k: Key, frames: seq<Frame>): set<nat> {
    if frames == [] then {}
    else Everyone(c, k, frames[..|frames|-1]) + Members(c, frames[|frames|-1].objects, k)
  }

  /** Those that enter the zone at the last frame. */
  ghost function EnterLast(c: Config, k: Key, frames: seq<Frame>): set<nat>
    requires frames != []
  {
    set t | t in Everyone(c, k, frames) && EntersAt(c, Sights(c, k, t, frames), |frames| - 1)
  }

  /** Those that leave it then. */
  ghost function LeaveLast(c: Config, k: Key, frames: seq<Frame>): set<nat>
    requires frames != []
  {
    set t | t in Everyone(c, k, frames) && LeavesAt(c, Sights(c, k, t, frames), |frames| - 1)
  }

  predicate EndsIn(c: Config, frames: seq<Frame>, start: int)
    requires c.Ok()
  {
    frames != [] && M.Floor(frames[|frames|-1].ts, c.length) == start
  }

  /** How many tracks enter the zone in the bucket: those that do at each of its frames. */
  ghost function Entries(c: Config, k: Key, frames: seq<Frame>, start: int): nat
    requires c.Ok()
  {
    if frames == [] then 0
    else
      Entries(c, k, frames[..|frames|-1], start) +
      (if EndsIn(c, frames, start) then |EnterLast(c, k, frames)| else 0)
  }

  ghost function Exits(c: Config, k: Key, frames: seq<Frame>, start: int): nat
    requires c.Ok()
  {
    if frames == [] then 0
    else
      Exits(c, k, frames[..|frames|-1], start) +
      (if EndsIn(c, frames, start) then |LeaveLast(c, k, frames)| else 0)
  }

  /** How many tracks each frame of the bucket shows in the zone. */
  ghost function Sizes(c: Config, k: Key, frames: seq<Frame>, start: int): seq<nat>
    requires c.Ok()
  {
    if frames == [] then []
    else
      Sizes(c, k, frames[..|frames|-1], start) +
      (if EndsIn(c, frames, start) then [|Members(c, frames[|frames|-1].objects, k)|] else [])
  }

  /** The dwells of the visits that end in the bucket. */
  ghost predicate Dwelt(c: Config, k: Key, frames: seq<Frame>, start: int, d: int)
    requires c.Ok()
  {
    frames != [] &&
      (Dwelt(c, k, frames[..|frames|-1], start, d)
       || (EndsIn(c, frames, start) && exists t :: LeftAfter(c, k, frames, t, d)))
  }

  /** The track leaves at the last frame, after a stay that long. */
  ghost predicate LeftAfter(c: Config, k: Key, frames: seq<Frame>, t: nat, d: int)
    requires frames != []
  {
    var H, n := Sights(c, k, t, frames), |frames| - 1;
    LeavesAt(c, H, n) && Stay(c, H, n) == d
  }

  /** The time between the frames of the bucket, each gap cut to the longest that counts. */
  ghost function Observed(c: Config, frames: seq<Frame>, start: int): int
    requires c.Ok()
  {
    if frames == [] then 0
    else
      var n := |frames| - 1;
      Observed(c, frames[..n], start) +
      (if EndsIn(c, frames, start) && EndsIn(c, frames[..n], start) then
         var dt := if frames[n].ts > frames[n-1].ts then frames[n].ts - frames[n-1].ts else 0;
         if dt > c.maxGap then c.maxGap else dt
       else 0)
  }

  // ---- the visits tell it ---------------------------------------------------------------------

  /** The zone's visits are where the turns of its tracks have left them. */
  ghost predicate Told(c: Config, k: Key, frames: seq<Frame>, visits: Visits) {
    forall t :: At(visits, t) == VisitAfter(c, Sights(c, k, t, frames), |frames|)
  }

  lemma {:induction false} VisitSame(c: Config, H: seq<Sight>, I: seq<Sight>, n: nat)
    requires n <= |H| && n <= |I| && forall j :: 0 <= j < n ==> H[j] == I[j]
    ensures VisitAfter(c, H, n) == VisitAfter(c, I, n)
  {
    hide Step;
    if n > 0 {
      VisitSame(c, H, I, n - 1);
    }
  }

  lemma VisitNext(c: Config, k: Key, frames: seq<Frame>, f: Frame, t: nat)
    ensures var H, n := Sights(c, k, t, frames + [f]), |frames|;
            && H[n] == Sight(Shows(c, f, k, t), f.ts)
            && VisitAfter(c, H, n) == VisitAfter(c, Sights(c, k, t, frames), n)
            && VisitAfter(c, H, n + 1) == Step(c, VisitAfter(c, H, n), H[n]).0
  {
    hide Step, Shows;
    var H, I := Sights(c, k, t, frames + [f]), Sights(c, k, t, frames);
    forall j | 0 <= j < |frames| ensures H[j] == I[j] {
      assert (frames + [f])[j] == frames[j];
    }
    VisitSame(c, H, I, |frames|);
  }

  lemma ToldNext(c: Config, k: Key, frames: seq<Frame>, f: Frame, before: Visits, after: Visits)
    requires Told(c, k, frames, before)
    requires var members := Members(c, f.objects, k);
             Turned(c, before, after, members + before.Keys, members, f.ts)
    ensures Told(c, k, frames + [f], after)
  {
    MembersShow(c, f, k);
    hide Members, Shows, Turn, Sights;
    var next := frames + [f];
    forall t ensures At(after, t) == VisitAfter(c, Sights(c, k, t, next), |next|) {
      VisitNext(c, k, frames, f, t);
    }
  }

  /** The turn of a track at the next frame changes what the frames say it does. */
  lemma TurnNext(c: Config, k: Key, frames: seq<Frame>, f: Frame, before: Visits, t: nat)
    requires c.Ok() && Told(c, k, frames, before)
    ensures var members, H, n := Members(c, f.objects, k), Sights(c, k, t, frames + [f]), |frames|;
            var change := Turn(c, At(before, t), t in members, f.ts).1;
            && (t in members + before.Keys ==>
                  (change == Enters <==> EntersAt(c, H, n)) && (change.Leaves? <==> LeavesAt(c, H, n))
                  && (LeavesAt(c, H, n) ==> change.dwell == Stay(c, H, n)))
            && (EntersAt(c, H, n) || LeavesAt(c, H, n) ==> t in members + before.Keys)
  {
    MembersShow(c, f, k);
    VisitNext(c, k, frames, f, t);
    var H, n := Sights(c, k, t, frames + [f]), |frames|;
    TurnsExactly(c, H, n);
    hide Members, Shows, Turn, Sights, EntersAt, LeavesAt, Stay, VisitAfter;
    assert At(before, t) == VisitAfter(c, H, n);
  }

  lemma {:induction false} ShownIsThere(c: Config, k: Key, frames: seq<Frame>, t: nat, j: nat)
    requires j < |frames| && Shows(c, frames[j], k, t)
    ensures t in Everyone(c, k, frames)
  {
    MembersShow(c, frames[|frames|-1], k);
    hide Shows, Members;
    if j < |frames| - 1 {
      assert frames[..|frames|-1][j] == frames[j];
      ShownIsThere(c, k, frames[..|frames|-1], t, j);
    }
  }

  /** A track with a visit has been shown. */
  lemma KnownIsThere(c: Config, k: Key, frames: seq<Frame>, visits: Visits, t: nat)
    requires c.Ok() && Told(c, k, frames, visits) && t in visits
    ensures t in Everyone(c, k, frames)
  {
    hide Sights, Shows, VisitAfter, InsideAfter, EnteredAt, RunOf, LastShown;
    var H := Sights(c, k, t, frames);
    VisitKeeps(c, H, |frames|);
    assert At(visits, t) == VisitAfter(c, H, |frames|);
    ShownIsThere(c, k, frames, t, LastShown(H, |frames|));
  }

  lemma EveryoneNext(c: Config, k: Key, frames: seq<Frame>, f: Frame)
    ensures Everyone(c, k, frames + [f]) == Everyone(c, k, frames) + Members(c, f.objects, k)
  {
    assert (frames + [f])[..|frames|] == frames;
  }

  lemma SidesNext(c: Config, k: Key, frames: seq<Frame>, f: Frame, before: Visits)
    requires c.Ok() && Told(c, k, frames, before)
    ensures var members := Members(c, f.objects, k);
            && Entering(c, before, members + before.Keys, members, f.ts) == EnterLast(c, k, frames + [f])
            && Leaving(c, before, members + before.Keys, members, f.ts) == LeaveLast(c, k, frames + [f])
  {
    var members, next := Members(c, f.objects, k), frames + [f];
    EveryoneNext(c, k, frames, f);
    hide Members, Turn, Sights, Told, EntersAt, LeavesAt, Everyone;
    forall t: nat
      ensures t in Entering(c, before, members + before.Keys, members, f.ts) <==> t in EnterLast(c, k, next)
      ensures t in Leaving(c, before, members + before.Keys, members, f.ts) <==> t in LeaveLast(c, k, next)
    {
      TurnNext(c, k, frames, f, before, t);
      if t in before {
        KnownIsThere(c, k, frames, before, t);
      }
    }
  }

  lemma DweltNext(c: Config, k: Key, frames: seq<Frame>, f: Frame, before: Visits, d: int)
    requires c.Ok() && Told(c, k, frames, before)
    ensures var members := Members(c, f.objects, k);
            (exists t :: t in members + before.Keys && Turn(c, At(before, t), t in members, f.ts).1 == Leaves(d)) <==>
              exists t :: LeftAfter(c, k, frames + [f], t, d)
  {
    var members := Members(c, f.objects, k);
    hide Members, Turn, Sights, Told, EntersAt, LeavesAt, Stay;
    forall t: nat
      ensures t in members + before.Keys && Turn(c, At(before, t), t in members, f.ts).1 == Leaves(d)
         <==> LeftAfter(c, k, frames + [f], t, d)
    {
      TurnNext(c, k, frames, f, before, t);
    }
  }

  // ---- tallies --------------------------------------------------------------------------------

  /** The zone's tally is what the frames of the bucket make it. */
  ghost predicate TallyIs(c: Config, k: Key, frames: seq<Frame>, start: int, t: Tally)
    requires c.Ok()
  {
    && t.samples == Sizes(c, k, frames, start) && t.entries == Entries(c, k, frames, start)
    && t.exits == Exits(c, k, frames, start) && forall d :: d in t.dwells <==> Dwelt(c, k, frames, start, d)
  }

  lemma DwellsNext(c: Config, k: Key, frames: seq<Frame>, f: Frame, start: int, before: Visits, b: Tally, next: Tally)
    requires c.Ok() && M.Floor(f.ts, c.length) == start && Told(c, k, frames, before)
    requires forall d :: d in b.dwells <==> Dwelt(c, k, frames, start, d)
    requires Tallied(c, before, Members(c, f.objects, k) + before.Keys, Members(c, f.objects, k), f.ts, b, next)
    ensures forall d :: d in next.dwells <==> Dwelt(c, k, frames + [f], start, d)
  {
    var all := frames + [f];
    assert all[..|frames|] == frames && all[|all|-1] == f;
    hide Members, Turn, Told, LeftAfter, M.Floor, Entering, Leaving;
    forall d ensures d in next.dwells <==> Dwelt(c, k, all, start, d) {
      DweltNext(c, k, frames, f, before, d);
    }
  }

  lemma SumsNext(c: Config, k: Key, frames: seq<Frame>, f: Frame, start: int)
    requires c.Ok() && M.Floor(f.ts, c.length) == start
    ensures var all := frames + [f];
            && Sizes(c, k, all, start) == Sizes(c, k, frames, start) + [|Members(c, f.objects, k)|]
            && Entries(c, k, all, start) == Entries(c, k, frames, start) + |EnterLast(c, k, all)|
            && Exits(c, k, all, start) == Exits(c, k, frames, start) + |LeaveLast(c, k, all)|
  {
    hide Members, M.Floor, EnterLast, LeaveLast;
    assert (frames + [f])[..|frames|] == frames;
  }

  lemma TallyNext(c: Config, k: Key, frames: seq<Frame>, f: Frame, start: int, before: Visits, b: Tally, next: Tally)
    requires c.Ok() && M.Floor(f.ts, c.length) == start && Told(c, k, frames, before)
    requires TallyIs(c, k, frames, start, b) && next.samples == b.samples + [|Members(c, f.objects, k)|]
    requires Tallied(c, before, Members(c, f.objects, k) + before.Keys, Members(c, f.objects, k), f.ts, b, next)
    ensures TallyIs(c, k, frames + [f], start, next)
  {
    SumsNext(c, k, frames, f, start);
    SidesNext(c, k, frames, f, before);
    DwellsNext(c, k, frames, f, start, before, b, next);
    hide Members, Turn, Told, M.Floor, Entering, Leaving, Dwelt, EnterLast, LeaveLast, Sizes, Entries, Exits;
  }

  /** Frames of other buckets leave a bucket empty. */
  lemma {:induction false} NothingIn(c: Config, k: Key, frames: seq<Frame>, start: int)
    requires c.Ok() && forall j :: 0 <= j < |frames| ==> M.Floor(frames[j].ts, c.length) != start
    ensures TallyIs(c, k, frames, start, Tally([], 0, 0, [])) && Observed(c, frames, start) == 0
  {
    hide M.Floor, Members, LeftAfter, EnterLast, LeaveLast;
    if frames != [] {
      NothingIn(c, k, frames[..|frames|-1], start);
    }
  }
}

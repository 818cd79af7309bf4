/** What an observation has to hold for a rule's condition to hold, and what an event rests on. */
module Signs {
  import opened Wrappers
  import opened Streaks
  import opened Evidence
  import T = Temporal

  // ---- said of an observation -----------------------------------------------------------------

  /** Object `j` is of a class the rule watches, with enough confidence. */
  predicate Fits(r: Rule, objects: seq<T.Object>, j: int) {
    0 <= j < |objects| && objects[j].class_ in r.classes && objects[j].confidence >= r.threshold
  }

  /** ... and the last such of its track. */
  predicate Latest(r: Rule, objects: seq<T.Object>, track: nat, j: int) {
    && Fits(r, objects, j) && objects[j].track == track
    && forall k :: j < k < |objects| && objects[k].track == track ==> !Fits(r, objects, k)
  }

  /** The objects that fit and are in the zone. */
  function Crowd(r: Rule, objects: seq<T.Object>, z: nat): set<int> {
    set j | 0 <= j < |objects| && Fits(r, objects, j) && z in objects[j].zones
  }

  /** The zone exists and is of a kind the rule asks for, if it asks for any. */
  predicate Watched(zones: map<nat, T.Zone>, r: Rule, z: nat) {
    z in zones && (r.zoneKinds != {} ==> zones[z].kind in r.zoneKinds)
  }

  predicate Capped(zones: map<nat, T.Zone>, r: Rule, z: nat) {
    Watched(zones, r, z) && zones[z].maxOccupancy.Some? && zones[z].maxOccupancy.value >= 0
  }

  /** The condition holds: the track is in the zone, the zone holds more than it may, the camera is bad. */
  ghost predicate HoldsAt(zones: map<nat, T.Zone>, r: Rule, k: T.Key, i: T.Input) {
    match k
    case PresenceKey(_, track, z) =>
      Watched(zones, r, z) && exists j :: Latest(r, i.obs.objects, track, j) && z in i.obs.objects[j].zones
    case OccupancyKey(_, z) =>
      Capped(zones, r, z) && |Crowd(r, i.obs.objects, z)| > zones[z].maxOccupancy.value
    case CameraKey(_) => i.camera == Some(T.Bad)
  }

  /** It says nothing: the track is not seen, the zone has no limit, the camera was not assessed. */
  ghost predicate SilentAt(zones: map<nat, T.Zone>, r: Rule, k: T.Key, i: T.Input) {
    match k
    case PresenceKey(_, track, _) => forall j :: Fits(r, i.obs.objects, j) ==> i.obs.objects[j].track != track
    case OccupancyKey(_, z) => !Capped(zones, r, z)
    case CameraKey(_) => i.camera == None
  }

  /** What is noted where it holds: the track's confidence, each object of the crowd, or the camera. */
  ghost predicate NotedAt(r: Rule, k: T.Key, i: T.Input, x: Note) {
    match k
    case PresenceKey(_, track, _) =>
      exists j :: Latest(r, i.obs.objects, track, j) && x == Note(Some(track), i.obs.objects[j].confidence)
    case OccupancyKey(_, z) =>
      exists j :: j in Crowd(r, i.obs.objects, z) &&
        x == Note(Some(i.obs.objects[j].track), i.obs.objects[j].confidence)
    case CameraKey(_) => x == Note(None, 1.0)
  }

  function CountAt(r: Rule, k: T.Key, i: T.Input): nat {
    if k.OccupancyKey? then |Crowd(r, i.obs.objects, k.zone)| else 0
  }

  // ---- the signs say so -----------------------------------------------------------------------

  lemma {:induction false} LastIsLatest(r: Rule, objects: seq<T.Object>, track: nat)
    ensures T.LastObject(r, objects, track).None? <==> forall j :: Fits(r, objects, j) ==> objects[j].track != track
    ensures T.LastObject(r, objects, track).Some? <==> exists j :: Latest(r, objects, track, j)
    ensures forall j :: Latest(r, objects, track, j) ==> T.LastObject(r, objects, track) == Some(objects[j])
  {
    if |objects| > 0 {
      var n := |objects| - 1;
      var init := objects[..n];
      LastIsLatest(r, init, track);
      if Fits(r, objects, n) && objects[n].track == track {
        assert Latest(r, objects, track, n);
      } else {
        forall j ensures Latest(r, objects, track, j) <==> Latest(r, init, track, j) {
          LatestSame(r, objects, track, j);
        }
        forall j ensures Fits(r, init, j) <==> Fits(r, objects, j) && j < n {
        }
      }
    }
  }

  lemma LatestSame(r: Rule, objects: seq<T.Object>, track: nat, j: int)
    requires |objects| > 0 && !(Fits(r, objects, |objects| - 1) && objects[|objects|-1].track == track)
    ensures Latest(r, objects, track, j) <==> Latest(r, objects[..|objects|-1], track, j)
  {
    var n := |objects| - 1;
    assert forall k :: 0 <= k < n ==> objects[..n][k] == objects[k];
    assert forall k :: 0 <= k < n ==> (Fits(r, objects[..n], k) <==> Fits(r, objects, k));
  }

  lemma {:induction false} MembersAre(r: Rule, objects: seq<T.Object>, z: nat)
    ensures |T.Members(r, objects, z)| == |Crowd(r, objects, z)|
    ensures forall x :: x in T.Members(r, objects, z) <==>
      exists j :: j in Crowd(r, objects, z) && x == Note(Some(objects[j].track), objects[j].confidence)
  {
    if |objects| > 0 {
      var n := |objects| - 1;
      var init := objects[..n];
      MembersAre(r, init, z);
      CrowdStep(r, objects, z);
      hide Crowd, Fits;
      forall x ensures x in T.Members(r, objects, z) <==>
        exists j :: j in Crowd(r, objects, z) && x == Note(Some(objects[j].track), objects[j].confidence)
      {
        if x in T.Members(r, init, z) {
          var j :| j in Crowd(r, init, z) && x == Note(Some(init[j].track), init[j].confidence);
          assert j in Crowd(r, objects, z);
        }
      }
    } else {
      assert Crowd(r, objects, z) == {};
    }
  }

  lemma CrowdStep(r: Rule, objects: seq<T.Object>, z: nat)
    requires |objects| > 0
    ensures var n := |objects| - 1; var init := objects[..n];
            && Crowd(r, objects, z) ==
                 Crowd(r, init, z) + (if T.Qualifies(r, objects[n]) && z in objects[n].zones then {n} else {})
            && n !in Crowd(r, init, z) && forall j :: j in Crowd(r, init, z) ==> 0 <= j < n && init[j] == objects[j]
  {
  }

  lemma PresenceSign(zones: map<nat, T.Zone>, r: Rule, k: T.Key, i: T.Input)
    requires k.PresenceKey?
    ensures SignIs(zones, r, k, i, T.SignOf(zones, r, k, i))
  {
    LastIsLatest(r, i.obs.objects, k.track);
    hide Latest, Fits, T.LastObject;
  }

  lemma OccupancySign(zones: map<nat, T.Zone>, r: Rule, k: T.Key, i: T.Input)
    requires k.OccupancyKey?
    ensures SignIs(zones, r, k, i, T.SignOf(zones, r, k, i))
  {
    MembersAre(r, i.obs.objects, k.zone);
    hide Crowd, T.Members;
  }

  /** Sign `s` says of the key what the input does. */
  ghost predicate SignIs(zones: map<nat, T.Zone>, r: Rule, k: T.Key, i: T.Input, s: Sign) {
    && (s.Hit? <==> HoldsAt(zones, r, k, i)) && (s.Unseen? <==> SilentAt(zones, r, k, i))
    && (s.Hit? ==> s.frame == i.obs.frame && s.count == CountAt(r, k, i) && s.notes != []
                   && forall x :: x in s.notes <==> NotedAt(r, k, i, x))
  }

  /** An observation is a hit for a key exactly when the condition holds, is passed over exactly when it says
      nothing of it, and is a miss otherwise. */
  lemma SignExactly(zones: map<nat, T.Zone>, r: Rule, k: T.Key, i: T.Input)
    ensures SignIs(zones, r, k, i, T.SignOf(zones, r, k, i))
  {
    match k {
      case PresenceKey(_, _, _) => PresenceSign(zones, r, k, i);
      case OccupancyKey(_, _) => OccupancySign(zones, r, k, i);
      case CameraKey(_) =>
    }
  }

  // ---- what an event rests on -----------------------------------------------------------------

  /** The observations, from the `a`-th on, at which the condition holds. */
  ghost function Held(zones: map<nat, T.Zone>, r: Rule, k: T.Key, run: seq<T.Input>, a: nat, n: nat): (H: set<int>)
    requires n <= |run|
    ensures forall j :: j in H ==> a <= j < n
  {
    set j | a <= j < n && HoldsAt(zones, r, k, run[j])
  }

  /** Their frames, none twice in a row. */
  ghost function HeldFrames(zones: map<nat, T.Zone>, r: Rule, k: T.Key, run: seq<T.Input>, a: nat, n: nat): seq<nat>
    requires a <= n <= |run|
  {
    if n == a then []
    else
      var before := HeldFrames(zones, r, k, run, a, n - 1);
      if HoldsAt(zones, r, k, run[n-1]) && (before == [] || before[|before|-1] != run[n-1].obs.frame)
      then before + [run[n-1].obs.frame]
      else before
  }

  /** The least confidence noted at those observations, 1 at most. */
  ghost predicate LeastNoted(r: Rule, k: T.Key, run: seq<T.Input>, H: set<int>, v: real)
    requires forall j :: j in H ==> 0 <= j < |run|
  {
    && v <= 1.0 && (forall j, x :: j in H && NotedAt(r, k, run[j], x) ==> v <= x.confidence)
    && (v == 1.0 || exists j, x :: j in H && NotedAt(r, k, run[j], x) && x.confidence == v)
  }

  /** The tracks noted. */
  ghost predicate TracksNoted(r: Rule, k: T.Key, run: seq<T.Input>, H: set<int>, tracks: set<nat>)
    requires forall j :: j in H ==> 0 <= j < |run|
  {
    forall t :: t in tracks <==> exists j, x :: j in H && NotedAt(r, k, run[j], x) && x.track == Some(t)
  }

  /** The largest count; 0 when there is none. */
  ghost predicate LargestHeld(r: Rule, k: T.Key, run: seq<T.Input>, H: set<int>, peak: nat)
    requires forall j :: j in H ==> 0 <= j < |run|
  {
    && (forall j :: j in H ==> CountAt(r, k, run[j]) <= peak)
    && (peak == 0 || exists j :: j in H && CountAt(r, k, run[j]) == peak)
  }

  /** The event carries these of the observations, from the `a`-th on, at which its condition holds, with their
      number and their last frames. */
  ghost predicate Carries(zones: map<nat, T.Zone>, r: Rule, k: T.Key, run: seq<T.Input>, a: nat, n: nat, f: Firing)
    requires a <= n <= |run|
  {
    var H := Held(zones, r, k, run, a, n);
    && LeastNoted(r, k, run, H, f.minConf) && TracksNoted(r, k, run, H, f.tracks) && LargestHeld(r, k, run, H, f.peak)
    && f.hits == |H| && f.frames == Tail(HeldFrames(zones, r, k, run, a, n))
  }

  lemma {:induction false} NotedWhere(S: seq<Seen>, a: nat, n: nat, x: Note)
    requires a <= n <= |S|
    ensures x in Noted(S, a, n) <==> exists j :: a <= j < n && S[j].sign.Hit? && x in S[j].sign.notes
  {
    if n > a {
      NotedWhere(S, a, n - 1, x);
    }
  }

  /** Signs that say what the inputs do. */
  ghost predicate Says(zones: map<nat, T.Zone>, r: Rule, k: T.Key, run: seq<T.Input>, S: seq<Seen>) {
    |S| == |run| && forall j :: 0 <= j < |run| ==> S[j].ts == run[j].obs.ts && SignIs(zones, r, k, run[j], S[j].sign)
  }

  lemma ProjectionSays(zones: map<nat, T.Zone>, r: Rule, k: T.Key, run: seq<T.Input>)
    ensures Says(zones, r, k, run, T.Projection(zones, r, k, run))
  {
    hide SignIs, T.SignOf;
    forall j | 0 <= j < |run| ensures SignIs(zones, r, k, run[j], T.SignOf(zones, r, k, run[j])) {
      SignExactly(zones, r, k, run[j]);
    }
  }

  lemma SaysAt(zones: map<nat, T.Zone>, r: Rule, k: T.Key, run: seq<T.Input>, S: seq<Seen>, j: nat)
    requires Says(zones, r, k, run, S) && j < |run|
    ensures |S| == |run| && S[j].ts == run[j].obs.ts && SignIs(zones, r, k, run[j], S[j].sign)
    ensures S[j].sign.Hit? <==> HoldsAt(zones, r, k, run[j])
    ensures S[j].sign.Hit? ==> S[j].sign.frame == run[j].obs.frame && S[j].sign.notes != []
  {
    hide HoldsAt, SilentAt, NotedAt, CountAt;
    assert SignIs(zones, r, k, run[j], S[j].sign);
  }

  lemma HeldStep(zones: map<nat, T.Zone>, r: Rule, k: T.Key, run: seq<T.Input>, a: nat, n: nat)
    requires a <= n < |run|
    ensures Held(zones, r, k, run, a, a) == {}
    ensures var H := Held(zones, r, k, run, a, n);
            && n !in H && Held(zones, r, k, run, a, n + 1) == (if HoldsAt(zones, r, k, run[n]) then H + {n} else H)
            && |Held(zones, r, k, run, a, n + 1)| == |H| + (if HoldsAt(zones, r, k, run[n]) then 1 else 0)
  {
    hide HoldsAt;
    var H := Held(zones, r, k, run, a, n);
    assert Held(zones, r, k, run, a, n + 1) == if HoldsAt(zones, r, k, run[n]) then H + {n} else H;
  }

  lemma {:induction false} HitsHeld(zones: map<nat, T.Zone>, r: Rule, k: T.Key, run: seq<T.Input>, S: seq<Seen>,
                                    a: nat, n: nat)
    requires Says(zones, r, k, run, S) && a < n <= |run| && |S| == |run|
    ensures Hits(S, a, n) == |Held(zones, r, k, run, a, n)|
  {
    hide HoldsAt, SignIs, Says, Held;
    SaysAt(zones, r, k, run, S, n - 1);
    HeldStep(zones, r, k, run, a, n - 1);
    if n > a + 1 {
      HitsHeld(zones, r, k, run, S, a, n - 1);
    }
  }

  lemma {:induction false} FramesHeld(zones: map<nat, T.Zone>, r: Rule, k: T.Key, run: seq<T.Input>, S: seq<Seen>,
                                      a: nat, n: nat)
    requires Says(zones, r, k, run, S) && a <= n <= |run| && |S| == |run|
    ensures Shown(S, a, n) == HeldFrames(zones, r, k, run, a, n)
  {
    hide HoldsAt, SignIs, Says;
    if n > a {
      SaysAt(zones, r, k, run, S, n - 1);
      FramesHeld(zones, r, k, run, S, a, n - 1);
    }
  }

  lemma NotedHeld(zones: map<nat, T.Zone>, r: Rule, k: T.Key, run: seq<T.Input>, S: seq<Seen>, a: nat, n: nat, x: Note)
    requires Says(zones, r, k, run, S) && a <= n <= |run|
    ensures x in Noted(S, a, n) <==> exists j :: j in Held(zones, r, k, run, a, n) && NotedAt(r, k, run[j], x)
  {
    NotedWhere(S, a, n, x);
    hide HoldsAt, SilentAt, NotedAt, CountAt, Noted;
    forall j | a <= j < n
      ensures S[j].sign.Hit? && x in S[j].sign.notes <==>
        j in Held(zones, r, k, run, a, n) && NotedAt(r, k, run[j], x)
    {
      assert SignIs(zones, r, k, run[j], S[j].sign);
    }
  }

  lemma NotesCarry(zones: map<nat, T.Zone>, r: Rule, k: T.Key, run: seq<T.Input>, S: seq<Seen>, a: nat, n: nat,
                   minConf: real, tracks: set<nat>)
    requires Says(zones, r, k, run, S) && a < n <= |run| && |S| == |run|
    requires Least(Noted(S, a, n), minConf) && tracks == TracksIn(Noted(S, a, n))
    ensures LeastNoted(r, k, run, Held(zones, r, k, run, a, n), minConf)
    ensures TracksNoted(r, k, run, Held(zones, r, k, run, a, n), tracks)
  {
    var H, N := Held(zones, r, k, run, a, n), Noted(S, a, n);
    hide HoldsAt, Noted, NotedAt, Says, Held;
    forall x ensures x in N <==> exists j :: j in H && NotedAt(r, k, run[j], x) {
      NotedHeld(zones, r, k, run, S, a, n, x);
    }
  }

  lemma PeakCarries(zones: map<nat, T.Zone>, r: Rule, k: T.Key, run: seq<T.Input>, S: seq<Seen>, a: nat, n: nat,
                    peak: nat)
    requires Says(zones, r, k, run, S) && a < n <= |run| && |S| == |run| && Largest(S, a, n, peak)
    ensures LargestHeld(r, k, run, Held(zones, r, k, run, a, n), peak)
  {
    var H := Held(zones, r, k, run, a, n);
    hide HoldsAt, CountAt, Says;
    forall j: nat | a <= j < n
      ensures S[j].sign.Hit? <==> j in H
      ensures S[j].sign.Hit? ==> S[j].sign.count == CountAt(r, k, run[j])
    {
      CountSays(zones, r, k, run, S, j);
    }
  }

  /** What the observations gather is what the run does. */
  lemma GatheredCarries(zones: map<nat, T.Zone>, r: Rule, k: T.Key, run: seq<T.Input>, S: seq<Seen>, a: nat, n: nat,
                        f: Firing)
    requires Says(zones, r, k, run, S) && a < n <= |run| && |S| == |run|
    requires Gathered(S, a, n, f.minConf, f.frames, f.tracks, f.peak) && f.hits == Hits(S, a, n)
    ensures Carries(zones, r, k, run, a, n, f)
  {
    hide HoldsAt, Noted, Shown, HeldFrames, Hits, Says, Tail, Held, Least, TracksIn, Largest, LeastNoted, TracksNoted,
      LargestHeld;
    HitsHeld(zones, r, k, run, S, a, n);
    FramesHeld(zones, r, k, run, S, a, n);
    NotesCarry(zones, r, k, run, S, a, n, f.minConf, f.tracks);
    PeakCarries(zones, r, k, run, S, a, n, f.peak);
  }

  lemma CountSays(zones: map<nat, T.Zone>, r: Rule, k: T.Key, run: seq<T.Input>, S: seq<Seen>, j: nat)
    requires Says(zones, r, k, run, S) && j < |run|
    ensures |S| == |run| && (S[j].sign.Hit? <==> HoldsAt(zones, r, k, run[j]))
    ensures S[j].sign.Hit? ==> S[j].sign.count == CountAt(r, k, run[j])
  {
    hide HoldsAt, SilentAt, NotedAt, CountAt;
    assert SignIs(zones, r, k, run[j], S[j].sign);
  }

  /** The firing rests on the observations from `a` to `m`: its condition holds at both, it is dated by them, and it
      counts those in between at which the condition holds, and carries what they show. */
  ghost predicate RestsOn(zones: map<nat, T.Zone>, r: Rule, k: T.Key, run: seq<T.Input>, a: int, m: int, f: Firing) {
    && 0 <= a <= m < |run| && HoldsAt(zones, r, k, run[a]) && HoldsAt(zones, r, k, run[m])
    && f.since == run[a].obs.ts && f.ts == run[m].obs.ts && Carries(zones, r, k, run, a, m + 1, f)
  }

  /** An event rests on the observations of its streak, from the one that opened it to the one that fires. */
  lemma EventRests(zones: map<nat, T.Zone>, r: Rule, k: T.Key, run: seq<T.Input>, m: nat)
    requires r.Ok() && m < |run| && FiresAt(r, T.Projection(zones, r, k, run), m).Some?
    ensures RestsOn(zones, r, k, run, T.OpenedAt(zones, r, k, run, m), m,
                    FiresAt(r, T.Projection(zones, r, k, run), m).value)
  {
    hide *;
    var S := T.Projection(zones, r, k, run);
    FiresExactly(r, S, m);
    FiresWith(r, S, m);
    ProjectionSays(zones, r, k, run);
    var a := T.OpenedAt(zones, r, k, run, m);
    OpenedHit(zones, r, k, run, m);
    SaysAt(zones, r, k, run, S, a);
    SaysAt(zones, r, k, run, S, m);
    GatheredCarries(zones, r, k, run, S, a, m + 1, FiresAt(r, S, m).value);
    Rests(zones, r, k, run, a, m, FiresAt(r, S, m).value);
  }

  lemma Rests(zones: map<nat, T.Zone>, r: Rule, k: T.Key, run: seq<T.Input>, a: nat, m: nat, f: Firing)
    requires a <= m < |run| && HoldsAt(zones, r, k, run[a]) && HoldsAt(zones, r, k, run[m])
    requires f.since == run[a].obs.ts && f.ts == run[m].obs.ts && Carries(zones, r, k, run, a, m + 1, f)
    ensures RestsOn(zones, r, k, run, a, m, f)
  {
    hide HoldsAt, Carries;
  }

  lemma OpenedHit(zones: map<nat, T.Zone>, r: Rule, k: T.Key, run: seq<T.Input>, m: nat)
    requires m < |run|
    ensures var S, a := T.Projection(zones, r, k, run), T.OpenedAt(zones, r, k, run, m);
            |S| == |run| && a == Origin(r, S, m + 1) && (a >= 0 ==> a <= m && S[a].sign.Hit?)
  {
    hide T.Projection;
  }

  lemma {:induction false} FiredSomewhere(r: Rule, S: seq<Seen>, n: nat, f: Firing) returns (m: nat)
    requires n <= |S| && f in Fired(r, S, n)
    ensures m < n && FiresAt(r, S, m) == Some(f)
  {
    hide FiresAt;
    if f in Fired(r, S, n - 1) {
      m := FiredSomewhere(r, S, n - 1, f);
    } else {
      m := n - 1;
    }
  }

  /** So does every event that the engine, or a replay, gives of a key. */
  lemma {:induction false} EveryEventRests(zones: map<nat, T.Zone>, r: Rule, k: T.Key, run: seq<T.Input>,
                                           events: seq<T.Event>, e: T.Event)
    requires r.Ok() && e in T.EventsOf(events, k)
    requires T.EventsOf(events, k) == T.Named(r, k, Fired(r, T.Projection(zones, r, k, run), |run|))
    ensures e.key == k && e.version == r.version && exists a, m :: RestsOn(zones, r, k, run, a, m, e.firing)
  {
    hide *;
    var S := T.Projection(zones, r, k, run);
    var fired := Fired(r, S, |run|);
    var i :| 0 <= i < |T.Named(r, k, fired)| && T.Named(r, k, fired)[i] == e;
    var m := FiredSomewhere(r, S, |run|, fired[i]);
    EventRests(zones, r, k, run, m);
    assert RestsOn(zones, r, k, run, T.OpenedAt(zones, r, k, run, m), m, e.firing);
  }
}

/** The evidence an event carries, said of the observations of its streak: the lowest confidence, the
    last frames, the tracks and the largest count. */
module Evidence {
  import opened Wrappers
  import opened Streaks

  // ---- said of the observations ---------------------------------------------------------------

  /** All that the hits from observation `a` on noted, in order. */
  function Noted(S: seq<Seen>, a: nat, n: nat): seq<Note>
    requires a <= n <= |S|
  {
    if n == a then []
    else if S[n-1].sign.Hit? then Noted(S, a, n - 1) + S[n-1].sign.notes
    else Noted(S, a, n - 1)
  }

  /** The frames in which they noted something, none twice in a row. */
  function Shown(S: seq<Seen>, a: nat, n: nat): seq<nat>
    requires a <= n <= |S|
  {
    if n == a then []
    else
      var before := Shown(S, a, n - 1);
      if S[n-1].sign.Hit? && S[n-1].sign.notes != [] && (before == [] || before[|before|-1] != S[n-1].sign.frame)
      then before + [S[n-1].sign.frame]
      else before
  }

  /** The least confidence of the notes; 1 when there is none or all are above it. */
  ghost predicate Least(notes: seq<Note>, v: real) {
    && v <= 1.0 && (forall x :: x in notes ==> v <= x.confidence)
    && (v == 1.0 || exists x :: x in notes && x.confidence == v)
  }

  function TracksIn(notes: seq<Note>): set<nat> {
    set x | x in notes && x.track.Some? :: x.track.value
  }

  /** The last twenty. */
  function Tail(frames: seq<nat>): seq<nat> {
    if |frames| <= 20 then frames else frames[|frames|-20..]
  }

  predicate CountedAt(S: seq<Seen>, j: nat, count: nat) {
    j < |S| && S[j].sign.Hit? && S[j].sign.count == count
  }

  /** The largest count of a hit; 0 when there is none. */
  ghost predicate Largest(S: seq<Seen>, a: nat, n: nat, peak: nat)
    requires a <= n <= |S|
  {
    && (forall j :: a <= j < n && S[j].sign.Hit? ==> S[j].sign.count <= peak)
    && (peak == 0 || exists j: nat :: a <= j < n && CountedAt(S, j, peak))
  }

  /** What the observations from `a` on, up to the `n`-th, have gathered. */
  ghost predicate Gathered(S: seq<Seen>, a: nat, n: nat, minConf: real, frames: seq<nat>, tracks: set<nat>, peak: nat)
    requires a <= n <= |S|
  {
    && Least(Noted(S, a, n), minConf) && frames == Tail(Shown(S, a, n)) && tracks == TracksIn(Noted(S, a, n))
    && Largest(S, a, n, peak)
  }

  // ---- notes ----------------------------------------------------------------------------------

  lemma LeastStep(notes: seq<Note>, v: real, x: Note)
    requires Least(notes, v)
    ensures Least(notes + [x], if x.confidence < v then x.confidence else v)
  {
    var u := if x.confidence < v then x.confidence else v;
    if u == x.confidence {
      assert x in notes + [x];
    } else if u != 1.0 {
      var y :| y in notes && y.confidence == v;
      assert y in notes + [x];
    }
  }

  lemma TracksStep(notes: seq<Note>, x: Note)
    ensures TracksIn(notes + [x]) == TracksIn(notes) + (if x.track.Some? then {x.track.value} else {})
  {
    forall t | t in TracksIn(notes) ensures t in TracksIn(notes + [x]) {
      var y :| y in notes && y.track.Some? && y.track.value == t;
      assert y in notes + [x];
    }
    assert x in notes + [x];
  }

  function Show(frames: seq<nat>, frame: nat): seq<nat> {
    if frames == [] || frames[|frames|-1] != frame then frames + [frame] else frames
  }

  lemma AddNoteGathers(st: Streak, frame: nat, x: Note, notes: seq<Note>, frames: seq<nat>)
    requires st.streakIn > 0 && Least(notes, st.minConf) && st.tracks == TracksIn(notes) && st.frames == Tail(frames)
    ensures var u := AddNote(st, frame, x);
            && u.streakIn == st.streakIn && Least(notes + [x], u.minConf) && u.tracks == TracksIn(notes + [x])
            && u.frames == Tail(Show(frames, frame)) && u.peak == st.peak
  {
    LeastStep(notes, st.minConf, x);
    TracksStep(notes, x);
    hide Least, TracksIn;
    var u := AddNote(st, frame, x);
    assert frames != [] ==> st.frames[|st.frames|-1] == frames[|frames|-1];
  }

  lemma {:induction false} AddNotesGathers(st: Streak, frame: nat, more: seq<Note>, notes: seq<Note>, frames: seq<nat>)
    requires st.streakIn > 0 && Least(notes, st.minConf) && st.tracks == TracksIn(notes) && st.frames == Tail(frames)
    ensures var u := AddNotes(st, frame, more);
            && Least(notes + more, u.minConf) && u.tracks == TracksIn(notes + more) && u.peak == st.peak
            && u.frames == Tail(if more == [] then frames else Show(frames, frame))
    decreases |more|
  {
    hide Least, TracksIn, Tail, AddNote;
    if more == [] {
      assert notes + more == notes;
    } else {
      AddNoteGathers(st, frame, more[0], notes, frames);
      AddNotesGathers(AddNote(st, frame, more[0]), frame, more[1..], notes + [more[0]], Show(frames, frame));
      assert notes + [more[0]] + more[1..] == notes + more;
      assert Show(Show(frames, frame), frame) == Show(frames, frame);
    }
  }

  // ---- the machine gathers it -----------------------------------------------------------------

  /** A streak in progress holds what was gathered since it opened; one that is not holds nothing. */
  ghost predicate Holds(r: Rule, S: seq<Seen>, n: nat, ks: KeyState)
    requires n <= |S|
  {
    var a := Origin(r, S, n);
    if a < 0 then ks.st.Some? ==> Blank(ks.st.value)
    else ks.st.Some? && var st := ks.st.value; Gathered(S, a, n, st.minConf, st.frames, st.tracks, st.peak)
  }

  predicate Blank(st: Streak) {
    st.minConf == 1.0 && st.frames == [] && st.tracks == {} && st.peak == 0
  }

  lemma BlankGathers(S: seq<Seen>, a: nat)
    requires a <= |S|
    ensures Gathered(S, a, a, 1.0, [], {}, 0)
  {
  }

  lemma GatherStep(S: seq<Seen>, a: nat, n: nat, st: Streak)
    requires a <= n < |S| && S[n].sign.Hit? && st.streakIn > 0
    requires Gathered(S, a, n, st.minConf, st.frames, st.tracks, st.peak)
    ensures var (frame, notes, count) := (S[n].sign.frame, S[n].sign.notes, S[n].sign.count);
            var u := AddNotes(st.(peak := if count > st.peak then count else st.peak), frame, notes);
            Gathered(S, a, n + 1, u.minConf, u.frames, u.tracks, u.peak)
  {
    var (frame, notes, count) := (S[n].sign.frame, S[n].sign.notes, S[n].sign.count);
    var t := st.(peak := if count > st.peak then count else st.peak);
    AddNotesGathers(t, frame, notes, Noted(S, a, n), Shown(S, a, n));
    LargestStep(S, a, n, st.peak);
    hide Least, TracksIn, Tail, AddNotes, Largest;
  }

  lemma LargestStep(S: seq<Seen>, a: nat, n: nat, peak: nat)
    requires a <= n < |S| && S[n].sign.Hit? && Largest(S, a, n, peak)
    ensures Largest(S, a, n + 1, if S[n].sign.count > peak then S[n].sign.count else peak)
  {
    assert CountedAt(S, n, S[n].sign.count);
  }

  lemma GatherSame(S: seq<Seen>, a: nat, n: nat, minConf: real, frames: seq<nat>, tracks: set<nat>, peak: nat)
    requires a <= n < |S| && !S[n].sign.Hit? && Gathered(S, a, n, minConf, frames, tracks, peak)
    ensures Gathered(S, a, n + 1, minConf, frames, tracks, peak)
  {
    hide Least, TracksIn, Tail;
  }

  /** The streak a hit leaves: advanced, its peak raised, its notes added. */
  function Struck(r: Rule, st: Streak, ts: int, frame: nat, notes: seq<Note>, count: nat): Streak {
    var u := Advance(r, st, true, ts).0;
    AddNotes(u.(peak := if count > u.peak then count else u.peak), frame, notes)
  }

  lemma HitTurn(r: Rule, ks: KeyState, o: Seen)
    requires o.sign.Hit?
    ensures var (after, f) := Turn(r, ks, o);
            var st := if ks.st.None? then FRESH else ks.st.value;
            var u := Struck(r, st, o.ts, o.sign.frame, o.sign.notes, o.sign.count);
            && after.st.Some? && after.st.value == u.(fired := after.st.value.fired)
            && (f.Some? ==> f.value.minConf == u.minConf && f.value.frames == u.frames && f.value.tracks == u.tracks
                            && f.value.peak == u.peak)
  {
    hide AddNotes;
  }

  lemma AdvanceKeeps(r: Rule, st: Streak, ts: int)
    requires st.streakIn > 0 || !st.confirmed
    ensures var u := Advance(r, st, true, ts).0;
            && u.streakIn > 0 && u.minConf == st.minConf && u.frames == st.frames && u.tracks == st.tracks
            && u.peak == st.peak
  {
  }

  lemma StruckGathers(r: Rule, S: seq<Seen>, a: nat, n: nat, st: Streak)
    requires a <= n < |S| && S[n].sign.Hit? && (st.streakIn > 0 || !st.confirmed)
    requires Gathered(S, a, n, st.minConf, st.frames, st.tracks, st.peak)
    ensures var u := Struck(r, st, S[n].ts, S[n].sign.frame, S[n].sign.notes, S[n].sign.count);
            Gathered(S, a, n + 1, u.minConf, u.frames, u.tracks, u.peak)
  {
    AdvanceKeeps(r, st, S[n].ts);
    hide Gathered, AddNotes, Advance;
    GatherStep(S, a, n, Advance(r, st, true, S[n].ts).0);
  }

  /** The streak a hit finds, and where it opened: at the hit itself if there is none. */
  lemma HitFinds(r: Rule, S: seq<Seen>, n: nat, ks: KeyState)
    requires n < |S| && Agrees(r, S, n, ks) && Holds(r, S, n, ks) && S[n].sign.Hit?
    ensures var a, st := Origin(r, S, n + 1), if ks.st.None? then FRESH else ks.st.value;
            && 0 <= a <= n && Gathered(S, a, n, st.minConf, st.frames, st.tracks, st.peak)
            && (st.streakIn > 0 || !st.confirmed)
  {
    BlankGathers(S, n);
    hide Gathered, Hits, Opening, Misses, MissRun, AnyDue;
  }

  lemma HoldsHit(r: Rule, S: seq<Seen>, n: nat, ks: KeyState)
    requires n <= |S| && Origin(r, S, n) >= 0 && ks.st.Some?
    requires var st := ks.st.value; Gathered(S, Origin(r, S, n), n, st.minConf, st.frames, st.tracks, st.peak)
    ensures Holds(r, S, n, ks)
  {
    hide Gathered, Origin;
  }

  lemma HitHolds(r: Rule, S: seq<Seen>, n: nat, ks: KeyState)
    requires n < |S| && Agrees(r, S, n, ks) && Holds(r, S, n, ks) && S[n].sign.Hit?
    ensures Holds(r, S, n + 1, Turn(r, ks, S[n]).0)
    ensures var a := Origin(r, S, n + 1); var f := Turn(r, ks, S[n]).1;
            f.Some? ==>
              0 <= a <= n && Gathered(S, a, n + 1, f.value.minConf, f.value.frames, f.value.tracks, f.value.peak)
  {
    hide *;
    HitFinds(r, S, n, ks);
    HitTurn(r, ks, S[n]);
    StruckGathers(r, S, Origin(r, S, n + 1), n, if ks.st.None? then FRESH else ks.st.value);
    HoldsHit(r, S, n + 1, Turn(r, ks, S[n]).0);
  }

  lemma OtherHolds(r: Rule, S: seq<Seen>, n: nat, ks: KeyState)
    requires n < |S| && Agrees(r, S, n, ks) && Holds(r, S, n, ks) && !S[n].sign.Hit?
    ensures Holds(r, S, n + 1, Turn(r, ks, S[n]).0)
  {
    var a := Origin(r, S, n);
    if a >= 0 {
      var st := ks.st.value;
      GatherSame(S, a, n, st.minConf, st.frames, st.tracks, st.peak);
    }
    hide Gathered;
  }

  lemma {:induction false} AlwaysHolds(r: Rule, S: seq<Seen>, n: nat)
    requires r.Ok() && n <= |S|
    ensures Holds(r, S, n, After(r, S, n))
  {
    hide Agrees, Turn, Gathered, Blank;
    if n > 0 {
      AlwaysAgrees(r, S, n - 1);
      AlwaysHolds(r, S, n - 1);
      if S[n-1].sign.Hit? {
        HitHolds(r, S, n - 1, After(r, S, n - 1));
      } else {
        OtherHolds(r, S, n - 1, After(r, S, n - 1));
      }
    }
  }

  /** An event carries what the observations of its streak have gathered, from the one that opened it to the
      one that fires. */
  lemma FiresWith(r: Rule, S: seq<Seen>, n: nat)
    requires r.Ok() && n < |S| && FiresAt(r, S, n).Some?
    ensures var f, a := FiresAt(r, S, n).value, Origin(r, S, n + 1);
            0 <= a <= n && S[n].sign.Hit? && Gathered(S, a, n + 1, f.minConf, f.frames, f.tracks, f.peak)
  {
    FiresExactly(r, S, n);
    AlwaysAgrees(r, S, n);
    AlwaysHolds(r, S, n);
    hide Agrees, Turn, Gathered, Holds, Origin;
    HitHolds(r, S, n, After(r, S, n));
  }
}

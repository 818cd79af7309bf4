/** The debounce of one rule on one subject: what it concludes from the times it saw the
    condition hold, saw it not hold, or did not see the subject at all.

    The machine is the program's; `Origin`, `Due` and the rest say without it which observation
    opens a streak and which one makes an event due, and `FiresExactly` that they agree. */
module Streaks {
  import opened Wrappers

  const MS := 1000  // times are in microseconds, rule parameters in milliseconds
  const MAX_FRAMES := 20

  datatype RuleKind = Presence | Occupancy | Camera

  datatype Rule = Rule(id: nat, version: nat, kind: RuleKind, minObservations: nat, minDwellMs: nat, hysteresis: nat,
                       cooldownMs: nat, windowMs: nat, threshold: real, classes: set<nat>, zoneKinds: set<nat>)
  {
    predicate Ok() {
      minObservations >= 1
    }

    /** How many misses in a row release a confirmed condition. */
    function Release(): nat {
      if hysteresis < 1 then 1 else hysteresis
    }

    function Window(): nat {
      MS * (if windowMs < 1 then 1 else windowMs)
    }
  }

  datatype Note = Note(track: Option<nat>, confidence: real)

  /** What one observation says of one subject: the condition holds (with its evidence), it does
      not, or the subject was not seen.  A `Clear` one is a miss that also makes the state. */
  datatype Sign = Hit(frame: nat, notes: seq<Note>, count: nat) | Miss | Clear | Unseen

  datatype Seen = Seen(ts: int, sign: Sign)

  datatype Streak = Streak(streakIn: nat, start: Option<int>, confirmed: bool, since: Option<int>, streakOut: nat,
                           fired: bool, lastSeen: Option<int>, hits: nat, minConf: real, frames: seq<nat>,
                           tracks: set<nat>, peak: nat)

  const FRESH := Streak(0, None, false, None, 0, false, None, 0, 1.0, [], {}, 0)

  datatype Firing = Firing(since: int, ts: int, hits: nat, minConf: real, frames: seq<nat>, tracks: set<nat>, peak: nat)

  /** The state kept of one subject: its streak, if any, and when it last fired. */
  datatype KeyState = KeyState(st: Option<Streak>, last: Option<int>)

  // ---- the machine ----------------------------------------------------------------------------

  function Reset(ts: int): Streak {
    FRESH.(lastSeen := Some(ts))
  }

  /** One qualifying or non-qualifying observation, and whether the event should fire now. */
  function Advance(r: Rule, st: Streak, hit: bool, ts: int): (Streak, bool) {
    if hit then
      var n := if st.confirmed then st.streakIn else st.streakIn + 1;
      var start := if !st.confirmed && st.streakIn == 0 then Some(ts) else st.start;
      var confirms := !st.confirmed && n >= r.minObservations;
      var next := st.(lastSeen := Some(ts), streakOut := 0, streakIn := n, start := start,
                      confirmed := st.confirmed || confirms, since := if confirms then start else st.since,
                      hits := st.hits + 1);
      (next, next.confirmed && !next.fired && next.since.Some? && ts - next.since.value >= MS * r.minDwellMs)
    else if !st.confirmed || st.streakOut + 1 >= r.Release() then (Reset(ts), false)
    else (st.(lastSeen := Some(ts), streakOut := st.streakOut + 1), false)
  }

  /** Evidence joins a streak in progress; only the last frames are kept. */
  function AddNote(st: Streak, frame: nat, note: Note): Streak {
    if !(st.confirmed || st.streakIn > 0) then st
    else
      var frames := if |st.frames| == 0 || st.frames[|st.frames|-1] != frame then st.frames + [frame] else st.frames;
      st.(frames := if |frames| > MAX_FRAMES then frames[1..] else frames,
          tracks := if note.track.Some? then st.tracks + {note.track.value} else st.tracks,
          minConf := if note.confidence < st.minConf then note.confidence else st.minConf)
  }

  function AddNotes(st: Streak, frame: nat, notes: seq<Note>): (r: Streak)
    ensures r == st.(frames := r.frames, tracks := r.tracks, minConf := r.minConf)
    decreases |notes|
  {
    if |notes| == 0 then st else AddNotes(AddNote(st, frame, notes[0]), frame, notes[1..])
  }

  /** One conclusion per streak, whether it fires or the cooldown suppresses it. */
  function Conclude(r: Rule, ks: KeyState, ts: int): (KeyState, Option<Firing>)
    requires ks.st.Some? && ks.st.value.since.Some?
  {
    var st := ks.st.value;
    var after := Some(st.(fired := true));
    if ks.last.Some? && ts - ks.last.value < MS * r.cooldownMs then (KeyState(after, ks.last), None)
    else
      (KeyState(after, Some(ts)), Some(Firing(st.since.value, ts, st.hits, st.minConf, st.frames, st.tracks, st.peak)))
  }

  function Observe(r: Rule, ks: KeyState, o: Seen): (KeyState, Option<Firing>) {
    match o.sign
    case Unseen => (ks, None)
    case Miss =>
      if ks.st.None? then (ks, None) else (ks.(st := Some(Advance(r, ks.st.value, false, o.ts).0)), None)
    case Clear =>
      (ks.(st := Some(Advance(r, if ks.st.None? then FRESH else ks.st.value, false, o.ts).0)), None)
    case Hit(frame, notes, count) =>
      var (st, fire) := Advance(r, if ks.st.None? then FRESH else ks.st.value, true, o.ts);
      var noted := AddNotes(st.(peak := if count > st.peak then count else st.peak), frame, notes);
      if fire then Conclude(r, ks.(st := Some(noted)), o.ts) else (ks.(st := Some(noted)), None)
  }

  /** A subject not seen for longer than the rule's window is forgotten. */
  function Expire(r: Rule, ks: KeyState, now: int): KeyState {
    if r.kind == Presence && ks.st.Some? && ks.st.value.lastSeen.Some? && now - ks.st.value.lastSeen.value > r.Window()
    then ks.(st := None)
    else ks
  }

  function Turn(r: Rule, ks: KeyState, o: Seen): (KeyState, Option<Firing>) {
    var (after, fired) := Observe(r, ks, o);
    (Expire(r, after, o.ts), fired)
  }

  /** The state after the first `n` observations. */
  function After(r: Rule, S: seq<Seen>, n: nat): KeyState
    requires n <= |S|
  {
    if n == 0 then KeyState(None, None) else Turn(r, After(r, S, n - 1), S[n-1]).0
  }

  function FiresAt(r: Rule, S: seq<Seen>, n: nat): Option<Firing>
    requires n < |S|
  {
    Turn(r, After(r, S, n), S[n]).1
  }

  /** The events of the first `n` observations. */
  function Fired(r: Rule, S: seq<Seen>, n: nat): seq<Firing>
    requires n <= |S|
  {
    if n == 0 then []
    else
      var f := FiresAt(r, S, n - 1);
      Fired(r, S, n - 1) + (if f.Some? then [f.value] else [])
  }

  // ---- without the machine --------------------------------------------------------------------

  predicate IsMiss(s: Sign) {
    s.Miss? || s.Clear?
  }

  /** How often the condition was seen to hold, from observation `a` on. */
  function Hits(S: seq<Seen>, a: nat, n: nat): nat
    requires a <= n <= |S|
  {
    if n == a then 0 else Hits(S, a, n - 1) + (if S[n-1].sign.Hit? then 1 else 0)
  }

  /** ... before it was first seen not to hold. */
  function Opening(S: seq<Seen>, a: nat, n: nat): nat
    requires a <= n <= |S|
  {
    if n == a then 0
    else if Misses(S, a, n) == 0 then Hits(S, a, n)
    else Opening(S, a, n - 1)
  }

  function Misses(S: seq<Seen>, a: nat, n: nat): nat
    requires a <= n <= |S|
  {
    if n == a then 0 else Misses(S, a, n - 1) + (if IsMiss(S[n-1].sign) then 1 else 0)
  }

  /** How many misses in a row end the observations from `a` on, those that did not see the
      subject left aside. */
  function MissRun(S: seq<Seen>, a: nat, n: nat): nat
    requires a <= n <= |S|
  {
    if n == a then 0
    else match S[n-1].sign
      case Hit(_, _, _) => 0
      case Unseen => MissRun(S, a, n - 1)
      case _ => MissRun(S, a, n - 1) + 1
  }

  function LastSeen(S: seq<Seen>, n: nat): Option<int>
    requires n <= |S|
  {
    if n == 0 then None else if S[n-1].sign.Unseen? then LastSeen(S, n - 1) else Some(S[n-1].ts)
  }

  /** A time unseen longer than the window, which is a millisecond at least. */
  predicate Outlasts(r: Rule, t: int) {
    t > 1000 && t > 1000 * r.windowMs
  }

  /** The observation that opened the streak still in progress after `n`; or -1.  A miss ends a
      streak that has not opened with enough hits, and so do enough misses in a row, and a time
      unseen longer than the window. */
  function Origin(r: Rule, S: seq<Seen>, n: nat): (a: int)
    requires n <= |S|
    ensures -1 <= a < n
    ensures a >= 0 ==> S[a].sign.Hit? && LastSeen(S, n).Some?
  {
    if n == 0 then -1
    else
      var a := Origin(r, S, n - 1);
      match S[n-1].sign
      case Hit(_, _, _) => if a >= 0 then a else n - 1
      case Unseen =>
        if a >= 0 && r.kind == Presence && Outlasts(r, S[n-1].ts - LastSeen(S, n - 1).value) then -1 else a
      case _ =>
        if a >= 0 && Opening(S, a, n - 1) >= r.minObservations && MissRun(S, a, n) < r.hysteresis then a else -1
  }

  /** At observation `j` the streak opened at `a` has what an event needs: enough hits at its
      opening, and the dwell. */
  predicate Due(r: Rule, S: seq<Seen>, a: nat, j: nat)
    requires a <= j < |S|
  {
    S[j].sign.Hit? && Opening(S, a, j + 1) >= r.minObservations && S[j].ts - S[a].ts >= 1000 * r.minDwellMs
  }

  predicate AnyDue(r: Rule, S: seq<Seen>, a: nat, n: nat)
    requires a <= n <= |S|
  {
    n > a && (Due(r, S, a, n - 1) || AnyDue(r, S, a, n - 1))
  }

  // ---- the two agree --------------------------------------------------------------------------

  /** What the machine keeps of the streak opened at `a`. */
  ghost predicate Matches(r: Rule, S: seq<Seen>, n: nat, st: Streak, a: nat)
    requires a < n <= |S|
  {
    && st.streakIn > 0 && st.start == Some(S[a].ts) && st.lastSeen == LastSeen(S, n) && st.hits == Hits(S, a, n)
    && st.confirmed == (Opening(S, a, n) >= r.minObservations) && st.fired == AnyDue(r, S, a, n)
    && (!st.confirmed ==> st.streakIn == Hits(S, a, n) && Misses(S, a, n) == 0 && st.streakOut == 0)
    && (st.confirmed ==> st.since == st.start && st.streakOut == MissRun(S, a, n) < r.Release())
  }

  ghost predicate Idle(st: Streak) {
    st.streakIn == 0 && !st.confirmed && !st.fired && st.streakOut == 0 && st.hits == 0
  }

  ghost predicate Agrees(r: Rule, S: seq<Seen>, n: nat, ks: KeyState)
    requires n <= |S|
  {
    var a := Origin(r, S, n);
    if a < 0 then ks.st.None? || Idle(ks.st.value)
    else ks.st.Some? && Matches(r, S, n, ks.st.value, a)
  }

  lemma {:induction false} HitAgrees(r: Rule, S: seq<Seen>, n: nat, ks: KeyState)
    requires r.Ok() && n < |S| && Agrees(r, S, n, ks) && S[n].sign.Hit?
    ensures Agrees(r, S, n + 1, Turn(r, ks, S[n]).0)
    ensures Turn(r, ks, S[n]).1.Some? ==> Origin(r, S, n + 1) >= 0
    ensures var a := Origin(r, S, n + 1);
            Turn(r, ks, S[n]).1.Some? <==>
              Due(r, S, a, n) && !AnyDue(r, S, a, n) && (ks.last.Some? ==> S[n].ts - ks.last.value >= MS * r.cooldownMs)
    ensures var a := Origin(r, S, n + 1); var f := Turn(r, ks, S[n]).1;
            f.Some? ==> f.value.since == S[a].ts && f.value.ts == S[n].ts && f.value.hits == Hits(S, a, n + 1)
                        && Turn(r, ks, S[n]).0.last == Some(S[n].ts)
    ensures Turn(r, ks, S[n]).1.None? ==> Turn(r, ks, S[n]).0.last == ks.last
  {
    hide AddNotes;
    var a := Origin(r, S, n);
    if a >= 0 {
      assert Matches(r, S, n, ks.st.value, a);
      assert Matches(r, S, n + 1, Turn(r, ks, S[n]).0.st.value, a);
    } else {
      assert Hits(S, n, n) == 0 && Misses(S, n, n) == 0 && !AnyDue(r, S, n, n);
      assert Matches(r, S, n + 1, Turn(r, ks, S[n]).0.st.value, n);
    }
  }

  lemma {:induction false} OtherAgrees(r: Rule, S: seq<Seen>, n: nat, ks: KeyState)
    requires r.Ok() && n < |S| && Agrees(r, S, n, ks) && !S[n].sign.Hit?
    ensures Agrees(r, S, n + 1, Turn(r, ks, S[n]).0)
    ensures Turn(r, ks, S[n]).1.None? && Turn(r, ks, S[n]).0.last == ks.last
  {
    var a := Origin(r, S, n);
    if a >= 0 {
      assert Matches(r, S, n, ks.st.value, a);
    }
  }

  lemma {:induction false} AlwaysAgrees(r: Rule, S: seq<Seen>, n: nat)
    requires r.Ok() && n <= |S|
    ensures Agrees(r, S, n, After(r, S, n))
    ensures var fired := Fired(r, S, n);
            After(r, S, n).last == if |fired| == 0 then None else Some(fired[|fired|-1].ts)
  {
    hide Agrees, Turn;
    if n > 0 {
      AlwaysAgrees(r, S, n - 1);
      if S[n-1].sign.Hit? {
        HitAgrees(r, S, n - 1, After(r, S, n - 1));
      } else {
        OtherAgrees(r, S, n - 1, After(r, S, n - 1));
      }
    } else {
      assert Agrees(r, S, 0, After(r, S, 0)) by {
        NothingAgrees(r, S);
      }
    }
  }

  lemma NothingAgrees(r: Rule, S: seq<Seen>)
    ensures Agrees(r, S, 0, After(r, S, 0))
  {
  }

  /** Observation `n` fires an event exactly when it is the first at which the streak in progress
      is due, and the cooldown since the last event is over.  The event names that streak. */
  lemma {:induction false} FiresExactly(r: Rule, S: seq<Seen>, n: nat)
    requires r.Ok() && n < |S|
    ensures var a := Origin(r, S, n + 1); var fired := Fired(r, S, n);
            FiresAt(r, S, n).Some? <==>
              a >= 0 && Due(r, S, a, n) && !AnyDue(r, S, a, n)
              && (|fired| > 0 ==> S[n].ts - fired[|fired|-1].ts >= MS * r.cooldownMs)
    ensures var a := Origin(r, S, n + 1); var f := FiresAt(r, S, n);
            f.Some? ==> f.value.since == S[a].ts && f.value.ts == S[n].ts && f.value.hits == Hits(S, a, n + 1)
  {
    hide Agrees, Turn;
    AlwaysAgrees(r, S, n);
    if S[n].sign.Hit? {
      HitAgrees(r, S, n, After(r, S, n));
    } else {
      OtherAgrees(r, S, n, After(r, S, n));
    }
  }

  /** Said of the observations alone: the `n`-th is the first at which the streak in progress is due, and
      the cooldown since the last such observation is over. */
  predicate Ripe(r: Rule, S: seq<Seen>, n: nat)
    requires n < |S|
    decreases n, 1
  {
    var a, last := Origin(r, S, n + 1), LastRipe(r, S, n);
    && a >= 0 && Due(r, S, a, n) && !AnyDue(r, S, a, n)
    && (last.Some? ==> S[n].ts - last.value >= MS * r.cooldownMs)
  }

  function LastRipe(r: Rule, S: seq<Seen>, n: nat): Option<int>
    requires n <= |S|
    decreases n, 0
  {
    if n == 0 then None else if Ripe(r, S, n - 1) then Some(S[n-1].ts) else LastRipe(r, S, n - 1)
  }

  /** Those are the observations that fire. */
  lemma {:induction false} RipeFires(r: Rule, S: seq<Seen>, n: nat)
    requires r.Ok() && n < |S|
    ensures Ripe(r, S, n) <==> FiresAt(r, S, n).Some?
    decreases n, 1
  {
    LastFires(r, S, n);
    FiresExactly(r, S, n);
    hide FiresAt, Due, AnyDue, Origin, LastRipe, Fired;
  }

  lemma {:induction false} LastFires(r: Rule, S: seq<Seen>, n: nat)
    requires r.Ok() && n <= |S|
    ensures var fired := Fired(r, S, n); LastRipe(r, S, n) == if |fired| == 0 then None else Some(fired[|fired|-1].ts)
    decreases n, 0
  {
    hide *;
    if n > 0 {
      RipeFires(r, S, n - 1);
      LastFires(r, S, n - 1);
      FiredTs(r, S, n - 1);
      LastStep(r, S, n - 1);
    } else {
      NoLast(r, S);
    }
  }

  lemma NoLast(r: Rule, S: seq<Seen>)
    ensures LastRipe(r, S, 0) == None && Fired(r, S, 0) == []
  {
  }

  lemma LastStep(r: Rule, S: seq<Seen>, n: nat)
    requires n < |S|
    ensures LastRipe(r, S, n + 1) == if Ripe(r, S, n) then Some(S[n].ts) else LastRipe(r, S, n)
    ensures Fired(r, S, n + 1) == Fired(r, S, n) + if FiresAt(r, S, n).Some? then [FiresAt(r, S, n).value] else []
  {
    hide FiresAt, Ripe;
  }

  lemma FiredTs(r: Rule, S: seq<Seen>, n: nat)
    requires r.Ok() && n < |S|
    ensures FiresAt(r, S, n).Some? ==> FiresAt(r, S, n).value.ts == S[n].ts
  {
    hide *;
    FiresExactly(r, S, n);
  }

  /** Until a streak is due nothing has been fired. */
  lemma {:induction false} NoneBeforeDue(r: Rule, S: seq<Seen>, n: nat)
    requires r.Ok() && n <= |S| && forall i :: 0 <= i < |S| ==> S[i].sign.Hit?
    requires n > 0 ==> !AnyDue(r, S, 0, n)
    ensures Fired(r, S, n) == [] && (n > 0 ==> Origin(r, S, n) == 0)
  {
    hide FiresAt, Due;
    if n > 0 {
      NoneBeforeDue(r, S, n - 1);
      FiresExactly(r, S, n - 1);
    }
  }

  lemma {:induction false} AllHits(S: seq<Seen>, n: nat)
    requires n <= |S| && forall i :: 0 <= i < |S| ==> S[i].sign.Hit?
    ensures Misses(S, 0, n) == 0 && Hits(S, 0, n) == n && Opening(S, 0, n) == n
  {
    if n > 0 {
      AllHits(S, n - 1);
    }
  }

  lemma {:induction false} FirstDue(r: Rule, S: seq<Seen>, n: nat) returns (m: nat)
    requires 0 < n <= |S| && AnyDue(r, S, 0, n)
    ensures m < n && Due(r, S, 0, m) && !AnyDue(r, S, 0, m)
  {
    hide Due;
    if n > 1 && AnyDue(r, S, 0, n - 1) {
      m := FirstDue(r, S, n - 1);
    } else {
      m := n - 1;
    }
  }

  /** Hits, enough of them and over long enough, fire. */
  lemma {:induction false} HitsFire(r: Rule, S: seq<Seen>) returns (m: nat)
    requires r.Ok() && |S| >= r.minObservations && forall i :: 0 <= i < |S| ==> S[i].sign.Hit?
    requires S[|S|-1].ts - S[0].ts >= MS * r.minDwellMs
    ensures m < |S| && FiresAt(r, S, m).Some?
  {
    AllHits(S, |S|);
    assert Due(r, S, 0, |S| - 1);
    m := FirstDue(r, S, |S|);
    hide Due, FiresAt;
    NoneBeforeDue(r, S, m);
    FiresExactly(r, S, m);
  }

  // ---- how often it fires ---------------------------------------------------------------------

  ghost predicate Rising(S: seq<Seen>) {
    forall i, j :: 0 <= i < j < |S| ==> S[i].ts < S[j].ts
  }

  /** A streak in progress has been the one in progress since it was opened. */
  lemma {:induction false} OriginStays(r: Rule, S: seq<Seen>, n: nat, k: nat)
    requires k <= n <= |S| && 0 <= Origin(r, S, n) < k
    ensures Origin(r, S, k) == Origin(r, S, n)
    decreases n
  {
    if k < n {
      OriginStays(r, S, n - 1, k);
    }
  }

  lemma {:induction false} DueIsAny(r: Rule, S: seq<Seen>, a: nat, j: nat, n: nat)
    requires a <= j < n <= |S| && Due(r, S, a, j)
    ensures AnyDue(r, S, a, n)
    decreases n
  {
    if j < n - 1 {
      DueIsAny(r, S, a, j, n - 1);
    }
  }

  /** No streak fires twice: of two events, the later names a streak that opened later. */
  lemma {:induction false} OncePerStreak(r: Rule, S: seq<Seen>, m: nat, n: nat)
    requires r.Ok() && Rising(S) && m < n < |S| && FiresAt(r, S, m).Some? && FiresAt(r, S, n).Some?
    ensures FiresAt(r, S, m).value.since < FiresAt(r, S, n).value.since
  {
    hide Turn, Due, FiresAt;
    FiresExactly(r, S, m);
    FiresExactly(r, S, n);
    var a := Origin(r, S, n + 1);
    if a <= m {
      OriginStays(r, S, n + 1, m + 1);
      DueIsAny(r, S, a, m, n);
    }
  }

  /** Events of one subject are at least the cooldown apart, whatever was forgotten in between. */
  lemma {:induction false} CooldownApart(r: Rule, S: seq<Seen>, n: nat, i: nat, j: nat)
    requires r.Ok() && n <= |S| && i < j < |Fired(r, S, n)|
    ensures Fired(r, S, n)[j].ts - Fired(r, S, n)[i].ts >= MS * r.cooldownMs
  {
    hide Turn, Due, FiresAt;
    if n > 0 {
      FiresExactly(r, S, n - 1);
      var before := Fired(r, S, n - 1);
      if j < |before| {
        CooldownApart(r, S, n - 1, i, j);
      } else if i < |before| - 1 {
        CooldownApart(r, S, n - 1, i, |before| - 1);
      }
    }
  }

  // ---- observations that do not see the subject -----------------------------------------------

  function SeenOnly(S: seq<Seen>, n: nat): seq<Seen>
    requires n <= |S|
  {
    if n == 0 then [] else SeenOnly(S, n - 1) + (if S[n-1].sign.Unseen? then [] else [S[n-1]])
  }

  ghost predicate InOrder(S: seq<Seen>) {
    forall i, j :: 0 <= i < j < |S| ==> S[i].ts <= S[j].ts
  }

  /** Consecutive sightings are at most the rule's window apart. */
  ghost predicate Close(r: Rule, S: seq<Seen>) {
    forall n :: 0 <= n < |S| && !S[n].sign.Unseen? && LastSeen(S, n).Some? ==>
      S[n].ts - LastSeen(S, n).value <= r.Window()
  }

  lemma {:induction false} PrefixSame(r: Rule, S: seq<Seen>, T: seq<Seen>, n: nat)
    requires n <= |S| && n <= |T| && S[..n] == T[..n]
    ensures After(r, S, n) == After(r, T, n) && Fired(r, S, n) == Fired(r, T, n)
  {
    hide Turn;
    if n > 0 {
      assert S[..n-1] == S[..n][..n-1] && T[..n-1] == T[..n][..n-1];
      assert S[n-1] == S[..n][n-1] && T[n-1] == T[..n][n-1];
      PrefixSame(r, S, T, n - 1);
    }
  }

  /** The states with and without them: the same, or already forgotten in the one. */
  ghost predicate Alike(r: Rule, S: seq<Seen>, n: nat, with: KeyState, without: KeyState)
    requires n <= |S|
  {
    && with.last == without.last
    && (without.st.Some? ==> without.st.value.lastSeen == LastSeen(S, n) && LastSeen(S, n).Some? && n > 0)
    && (with.st == without.st
        || (with.st.None? && without.st.Some? && S[n-1].ts - LastSeen(S, n).value > r.Window()))
  }

  lemma {:induction false} AlikeStep(r: Rule, S: seq<Seen>, n: nat, with: KeyState, without: KeyState)
    requires n < |S| && InOrder(S) && Close(r, S) && Alike(r, S, n, with, without)
    ensures S[n].sign.Unseen? ==> Alike(r, S, n + 1, Turn(r, with, S[n]).0, without) && Turn(r, with, S[n]).1 == None
    ensures !S[n].sign.Unseen? ==>
      Alike(r, S, n + 1, Turn(r, with, S[n]).0, Turn(r, without, S[n]).0) &&
        Turn(r, with, S[n]).1 == Turn(r, without, S[n]).1
  {
    hide AddNotes;
    if n > 0 {
      assert S[n-1].ts <= S[n].ts;
    }
  }

  /** Leaving out the observations that do not see the subject changes no event, when it is seen
      at least once a window. */
  lemma {:induction false} UnseenIsNothing(r: Rule, S: seq<Seen>, n: nat)
    requires n <= |S| && InOrder(S) && Close(r, S)
    ensures var T := SeenOnly(S, n);
            Fired(r, T, |T|) == Fired(r, S, n) && Alike(r, S, n, After(r, S, n), After(r, T, |T|))
  {
    hide Turn, Alike, Close, InOrder;
    if n == 0 {
      assert Alike(r, S, 0, KeyState(None, None), KeyState(None, None)) by {
        AlikeNothing(r, S);
      }
    } else {
      UnseenIsNothing(r, S, n - 1);
      var T, U := SeenOnly(S, n - 1), SeenOnly(S, n);
      AlikeStep(r, S, n - 1, After(r, S, n - 1), After(r, T, |T|));
      if !S[n-1].sign.Unseen? {
        assert U[..|T|] == T == T[..|T|];
        PrefixSame(r, U, T, |T|);
        assert |U| == |T| + 1 && U[|T|] == S[n-1];
      } else {
        assert U == T;
      }
    }
  }

  lemma AlikeNothing(r: Rule, S: seq<Seen>)
    ensures Alike(r, S, 0, KeyState(None, None), KeyState(None, None))
  {
  }
}

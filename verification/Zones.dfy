/** One asset in one zone: the debounce that turns jittery fixes into confirmed entries and exits,
    and the rules that raise each alarm once per episode.

    `ZoneRow` is the stored row and its methods; `Inside`, `InRun` and the rest say from the fixes
    alone what the row holds after them. */
module Zones {
  import opened Wrappers

  const STATIONARY_KPH := 1.5

  /** A zone's rule parameters; times are in microseconds.  `None` limits are rules not set. */
  datatype Config = Config(debounceIn: int, exitDebounce: int, hysteresis: real, minEntryDwell: int,
                           restricted: bool, authorized: set<nat>, speedLimit: Option<real>, overConsecutive: int,
                           dwell: Option<int>, maxGap: Option<int>)
  {
    predicate Ok() {
      debounceIn >= 1 && exitDebounce >= 1
    }
  }

  /** A fix as one zone sees it. */
  datatype Reading = Reading(ts: int, inside: bool, distance: real, speed: Option<real>)

  datatype State = State(inside: bool, consecIn: int, consecOut: int, enteredAt: Option<int>, lastTs: Option<int>,
                         overConsec: int, overFired: bool, stationarySince: Option<int>, dwellFired: bool)

  const NEW := State(false, 0, 0, None, None, 0, false, None, false)

  datatype Transition = Entry | Exit | Hold

  datatype Alarm = Breach(ts: int) | Overspeed(ts: int) | Dwell(ts: int, since: int)

  // ---- one fix, as a function -----------------------------------------------------------------

  predicate Silent(c: Config, last: Option<int>, ts: int) {
    last.Some? && (ts < last.value || (c.maxGap.Some? && ts - last.value > c.maxGap.value))
  }

  function Counted(c: Config, s: State, r: Reading): State {
    var t := if Silent(c, s.lastTs, r.ts) then s.(consecIn := 0, consecOut := 0) else s;
    if r.inside then
      t.(enteredAt := if !t.inside && (t.consecIn == 0 || t.enteredAt.None?) then Some(r.ts) else t.enteredAt,
         consecIn := t.consecIn + 1, consecOut := 0)
    else
      t.(consecIn := 0, consecOut := if r.distance > c.hysteresis then t.consecOut + 1 else t.consecOut)
  }

  function Stepped(c: Config, s: State, r: Reading): (State, Transition) {
    var t := Counted(c, s, r);
    if !t.inside then
      if t.consecIn >= c.debounceIn && t.enteredAt.Some? && r.ts - t.enteredAt.value >= c.minEntryDwell
      then (t.(inside := true, consecOut := 0), Entry)
      else (t, Hold)
    else if t.consecOut >= c.exitDebounce then
      (t.(inside := false, enteredAt := None, consecIn := 0, overConsec := 0, overFired := false,
          stationarySince := None, dwellFired := false), Exit)
    else (t, Hold)
  }

  function Speeding(c: Config, s: State, r: Reading): (State, seq<Alarm>)
    requires r.speed.Some?
  {
    if c.speedLimit.None? then (s, [])
    else if r.speed.value > c.speedLimit.value then
      var fires := s.overConsec + 1 >= c.overConsecutive && !s.overFired;
      (s.(overConsec := s.overConsec + 1, overFired := s.overFired || fires), if fires then [Overspeed(r.ts)] else [])
    else (s.(overConsec := 0, overFired := false), [])
  }

  function Dwelling(c: Config, s: State, r: Reading): (State, seq<Alarm>)
    requires r.speed.Some?
  {
    if c.dwell.None? then (s, [])
    else if r.speed.value < STATIONARY_KPH then
      if s.stationarySince.None? then (s.(stationarySince := Some(r.ts)), [])
      else if !s.dwellFired && r.ts - s.stationarySince.value >= c.dwell.value then
        (s.(dwellFired := true), [Dwell(r.ts, s.stationarySince.value)])
      else (s, [])
    else (s.(stationarySince := None, dwellFired := false), [])
  }

  function InZone(c: Config, s: State, r: Reading): (State, seq<Alarm>) {
    if r.speed.None? then (s.(overConsec := 0), [])
    else
      var (t, a) := Speeding(c, s, r);
      var (u, b) := Dwelling(c, t, r);
      (u, a + b)
  }

  /** All a live fix does to one zone's row, and the alarms it raises. */
  function Live(c: Config, class_: nat, s: State, r: Reading): (State, seq<Alarm>) {
    var (t, transition) := Stepped(c, s, r);
    var a := if transition == Entry && c.restricted && class_ !in c.authorized then [Breach(r.ts)] else [];
    var (u, b) := if t.inside then InZone(c, t, r) else (t, []);
    (u.(lastTs := Some(r.ts)), a + b)
  }

  // ---- the row --------------------------------------------------------------------------------

  class ZoneRow {
    var inside: bool
    var consecIn: int
    var consecOut: int
    var enteredAt: Option<int>
    var lastTs: Option<int>
    var overConsec: int
    var overFired: bool
    var stationarySince: Option<int>
    var dwellFired: bool

    function Snap(): State
      reads this
    {
      State(inside, consecIn, consecOut, enteredAt, lastTs, overConsec, overFired, stationarySince, dwellFired)
    }

    constructor (s: State)
      ensures Snap() == s
    {
      inside, consecIn, consecOut, enteredAt, lastTs := s.inside, s.consecIn, s.consecOut, s.enteredAt, s.lastTs;
      overConsec, overFired, stationarySince, dwellFired := s.overConsec, s.overFired, s.stationarySince, s.dwellFired;
    }

    /** Advances the debounce one fix. */
    method Step(c: Config, r: Reading) returns (t: Transition)
      modifies this
      ensures (Snap(), t) == Stepped(c, old(Snap()), r)
    {
      CountFix(c, r);
      hide Counted;
      if !inside {
        if consecIn >= c.debounceIn && enteredAt.Some? && r.ts - enteredAt.value >= c.minEntryDwell {
          inside := true;
          consecOut := 0;
          return Entry;
        }
        return Hold;
      }
      if consecOut >= c.exitDebounce {
        inside := false;
        enteredAt := None;
        consecIn := 0;
        overConsec := 0;
        overFired := false;
        stationarySince := None;
        dwellFired := false;
        return Exit;
      }
      return Hold;
    }

    /** Counts the fix into its run of inside, or of beyond-buffer, fixes. */
    method CountFix(c: Config, r: Reading)
      modifies this
      ensures Snap() == Counted(c, old(Snap()), r)
    {
      if lastTs.Some? && (r.ts < lastTs.value || (c.maxGap.Some? && r.ts - lastTs.value > c.maxGap.value)) {
        consecIn := 0;
        consecOut := 0;
      }
      if r.inside {
        if !inside && (consecIn == 0 || enteredAt.None?) {
          enteredAt := Some(r.ts);
        }
        consecIn := consecIn + 1;
        consecOut := 0;
      } else {
        consecIn := 0;
        if r.distance > c.hysteresis {
          consecOut := consecOut + 1;
        }
      }
    }

    /** Overspeed and dwell for a fix while confirmed inside. */
    method OnInzoneFix(c: Config, r: Reading) returns (alarms: seq<Alarm>)
      modifies this
      ensures (Snap(), alarms) == InZone(c, old(Snap()), r)
    {
      alarms := [];
      if r.speed.None? {
        overConsec := 0;
        return;
      }
      var speed := r.speed.value;
      ghost var before := Snap();
      if c.speedLimit.Some? {
        if speed > c.speedLimit.value {
          overConsec := overConsec + 1;
          if overConsec >= c.overConsecutive && !overFired {
            overFired := true;
            alarms := alarms + [Overspeed(r.ts)];
          }
        } else {
          overConsec := 0;
          overFired := false;
        }
      }
      ghost var a, middle := alarms, Snap();
      assert middle == Speeding(c, before, r).0 && a == Speeding(c, before, r).1;
      if c.dwell.Some? {
        if speed < STATIONARY_KPH {
          if stationarySince.None? {
            stationarySince := Some(r.ts);
          } else if !dwellFired && r.ts - stationarySince.value >= c.dwell.value {
            dwellFired := true;
            alarms := alarms + [Dwell(r.ts, stationarySince.value)];
          }
        } else {
          stationarySince := None;
          dwellFired := false;
        }
      }
      assert alarms == a + Dwelling(c, middle, r).1;
    }
  }

  // ---- from the fixes alone -------------------------------------------------------------------

  ghost predicate Rising(L: seq<Reading>) {
    forall i, j :: 0 <= i < j < |L| ==> L[i].ts < L[j].ts
  }

  /** A silence longer than the gap allowed comes before fix `n`. */
  predicate GapAt(c: Config, L: seq<Reading>, n: nat)
    requires n < |L|
  {
    n > 0 && c.maxGap.Some? && L[n].ts - L[n-1].ts > c.maxGap.value
  }

  /** How many fixes in a row, up to the `n`-th, were inside with no such silence between. */
  function InRun(c: Config, L: seq<Reading>, n: nat): (k: nat)
    requires n <= |L|
    ensures k <= n
  {
    if n == 0 || !L[n-1].inside then 0
    else if GapAt(c, L, n - 1) then 1
    else InRun(c, L, n - 1) + 1
  }

  /** How many were beyond the buffer since the last inside fix or such a silence. */
  function OutRun(c: Config, L: seq<Reading>, n: nat): nat
    requires n <= |L|
  {
    if n == 0 || L[n-1].inside then 0
    else (if GapAt(c, L, n - 1) then 0 else OutRun(c, L, n - 1)) + (if L[n-1].distance > c.hysteresis then 1 else 0)
  }

  /** Fix `n` ends a long enough run of inside fixes. */
  predicate Enters(c: Config, L: seq<Reading>, n: nat)
    requires n < |L|
  {
    var k := InRun(c, L, n + 1);
    k >= c.debounceIn && k > 0 && L[n].ts - L[n + 1 - k].ts >= c.minEntryDwell
  }

  predicate Leaves(c: Config, L: seq<Reading>, n: nat)
    requires n < |L|
  {
    OutRun(c, L, n + 1) >= c.exitDebounce
  }

  /** Whether the asset is inside after the first `n` fixes. */
  predicate Inside(c: Config, L: seq<Reading>, n: nat)
    requires n <= |L|
  {
    n > 0 && (if Inside(c, L, n - 1) then !Leaves(c, L, n - 1) else Enters(c, L, n - 1))
  }

  function After(c: Config, class_: nat, L: seq<Reading>, n: nat): State
    requires n <= |L|
  {
    if n == 0 then NEW else Live(c, class_, After(c, class_, L, n - 1), L[n-1]).0
  }

  function AlarmsAt(c: Config, class_: nat, L: seq<Reading>, n: nat): seq<Alarm>
    requires n < |L|
  {
    Live(c, class_, After(c, class_, L, n), L[n]).1
  }

  function TransitionAt(c: Config, class_: nat, L: seq<Reading>, n: nat): Transition
    requires n < |L|
  {
    Stepped(c, After(c, class_, L, n), L[n]).1
  }

  /** What the row holds of the debounce after `n` fixes. */
  ghost predicate Holds(c: Config, L: seq<Reading>, n: nat, s: State)
    requires n <= |L|
  {
    && s.inside == Inside(c, L, n) && s.consecIn == InRun(c, L, n) && s.consecOut == OutRun(c, L, n)
    && s.lastTs == (if n == 0 then None else Some(L[n-1].ts))
    && (!s.inside && s.consecIn > 0 ==> s.enteredAt == Some(L[n - InRun(c, L, n)].ts))
  }

  lemma RulesKeep(c: Config, s: State, r: Reading)
    ensures var t := InZone(c, s, r).0;
            t.inside == s.inside && t.consecIn == s.consecIn && t.consecOut == s.consecOut && t.lastTs == s.lastTs
            && t.enteredAt == s.enteredAt
  {
  }

  lemma {:induction false} StepHolds(c: Config, class_: nat, L: seq<Reading>, n: nat, s: State)
    requires c.Ok() && Rising(L) && n < |L| && Holds(c, L, n, s)
    ensures Holds(c, L, n + 1, Live(c, class_, s, L[n]).0)
    ensures var t := Stepped(c, s, L[n]).1;
            && (t == Entry <==> !Inside(c, L, n) && Enters(c, L, n))
            && (t == Exit <==> Inside(c, L, n) && Leaves(c, L, n))
  {
    assert n > 0 ==> L[n-1].ts < L[n].ts;
    var (t, transition) := Stepped(c, s, L[n]);
    RulesKeep(c, t, L[n]);
    hide InZone;
  }

  lemma {:induction false} AlwaysHolds(c: Config, class_: nat, L: seq<Reading>, n: nat)
    requires c.Ok() && Rising(L) && n <= |L|
    ensures Holds(c, L, n, After(c, class_, L, n))
  {
    hide Live;
    if n > 0 {
      AlwaysHolds(c, class_, L, n - 1);
      StepHolds(c, class_, L, n - 1, After(c, class_, L, n - 1));
    }
  }

  /** Entries and exits, exactly: an entry when the asset was outside and fix `n` ends a run of
      inside fixes long enough in count and time; an exit when it was inside and enough fixes lay
      beyond the buffer since the last inside fix or long silence. */
  lemma {:induction false} TransitionExactly(c: Config, class_: nat, L: seq<Reading>, n: nat)
    requires c.Ok() && Rising(L) && n < |L|
    ensures var t := TransitionAt(c, class_, L, n);
            && (t == Entry <==> !Inside(c, L, n) && Enters(c, L, n))
            && (t == Exit <==> Inside(c, L, n) && Leaves(c, L, n))
  {
    hide Live, Stepped;
    AlwaysHolds(c, class_, L, n);
    StepHolds(c, class_, L, n, After(c, class_, L, n));
  }

  /** What an entry rests on: the last `debounceIn` or more fixes, all inside, no long silence
      between them, spanning the dwell. */
  lemma {:induction false} EntryMeans(c: Config, class_: nat, L: seq<Reading>, n: nat) returns (a: nat)
    requires c.Ok() && Rising(L) && n < |L| && TransitionAt(c, class_, L, n) == Entry
    ensures a <= n && n + 1 - a >= c.debounceIn && L[n].ts - L[a].ts >= c.minEntryDwell
    ensures forall i :: a <= i <= n ==> L[i].inside
    ensures forall i :: a < i <= n ==> !GapAt(c, L, i)
  {
    TransitionExactly(c, class_, L, n);
    InRunMeans(c, L, n + 1);
    a := n + 1 - InRun(c, L, n + 1);
  }

  lemma {:induction false} InRunMeans(c: Config, L: seq<Reading>, n: nat)
    requires n <= |L|
    ensures forall i :: n - InRun(c, L, n) <= i < n ==> L[i].inside
    ensures forall i :: n - InRun(c, L, n) < i < n ==> !GapAt(c, L, i)
  {
    if n > 0 && L[n-1].inside && !GapAt(c, L, n - 1) {
      InRunMeans(c, L, n - 1);
    }
  }

  /** How many fixes from `a` on were beyond the buffer. */
  function Beyond(c: Config, L: seq<Reading>, a: nat, n: nat): nat
    requires a <= n <= |L|
  {
    if a == n then 0 else Beyond(c, L, a, n - 1) + (if L[n-1].distance > c.hysteresis then 1 else 0)
  }

  /** What an exit rests on: `exitDebounce` fixes beyond the buffer, with no inside fix and no long
      silence since the first of the spell. */
  lemma {:induction false} ExitMeans(c: Config, class_: nat, L: seq<Reading>, n: nat) returns (a: nat)
    requires c.Ok() && Rising(L) && n < |L| && TransitionAt(c, class_, L, n) == Exit
    ensures a <= n && Beyond(c, L, a, n + 1) >= c.exitDebounce
    ensures forall i :: a <= i <= n ==> !L[i].inside
    ensures forall i :: a < i <= n ==> !GapAt(c, L, i)
  {
    TransitionExactly(c, class_, L, n);
    a := OutRunMeans(c, L, n + 1);
  }

  lemma {:induction false} OutRunMeans(c: Config, L: seq<Reading>, n: nat) returns (a: nat)
    requires n <= |L|
    ensures a <= n && Beyond(c, L, a, n) == OutRun(c, L, n)
    ensures forall i :: a <= i < n ==> !L[i].inside
    ensures forall i :: a < i < n ==> !GapAt(c, L, i)
    ensures OutRun(c, L, n) > 0 ==> a < n
  {
    if n == 0 || L[n-1].inside {
      a := n;
    } else if GapAt(c, L, n - 1) {
      a := n - 1;
    } else {
      a := OutRunMeans(c, L, n - 1);
    }
  }

  /** Between two entries there is an exit. */
  lemma {:induction false} Alternate(c: Config, class_: nat, L: seq<Reading>, m: nat, n: nat) returns (x: nat)
    requires c.Ok() && Rising(L) && m < n < |L|
    requires TransitionAt(c, class_, L, m) == Entry && TransitionAt(c, class_, L, n) == Entry
    ensures m < x < n && TransitionAt(c, class_, L, x) == Exit
  {
    hide TransitionAt, Enters, Leaves;
    TransitionExactly(c, class_, L, m);
    TransitionExactly(c, class_, L, n);
    x := n - 1;
    while Inside(c, L, x + 1) || !Inside(c, L, x)
      invariant m < x < n && !Inside(c, L, x + 1)
      decreases x
    {
      x := x - 1;
    }
    TransitionExactly(c, class_, L, x);
  }

  // ---- the rules, from the fixes alone --------------------------------------------------------

  predicate Over(c: Config, r: Reading) {
    c.speedLimit.Some? && r.speed.Some? && r.speed.value > c.speedLimit.value
  }

  predicate Slow(c: Config, r: Reading) {
    c.speedLimit.Some? && r.speed.Some? && r.speed.value <= c.speedLimit.value
  }

  predicate Still(c: Config, r: Reading) {
    c.dwell.Some? && r.speed.Some? && r.speed.value < 1.5
  }

  predicate Moved(c: Config, r: Reading) {
    c.dwell.Some? && r.speed.Some? && r.speed.value >= 1.5
  }

  /** How many fixes in a row, up to the `n`-th, were over the limit inside. */
  function OverRun(c: Config, L: seq<Reading>, n: nat): nat
    requires n <= |L|
  {
    if n == 0 || !Inside(c, L, n) || !Over(c, L[n-1]) then 0 else OverRun(c, L, n - 1) + 1
  }

  /** The over-limit spell in progress has been alarmed. */
  predicate OverAlarmed(c: Config, L: seq<Reading>, n: nat)
    requires n <= |L|
  {
    n > 0 && Inside(c, L, n) && !Slow(c, L[n-1]) &&
    (OverAlarmed(c, L, n - 1) || (Over(c, L[n-1]) && OverRun(c, L, n) >= c.overConsecutive))
  }

  /** When the stationary spell in progress began. */
  function StillSince(c: Config, L: seq<Reading>, n: nat): Option<int>
    requires n <= |L|
  {
    if n == 0 || !Inside(c, L, n) || Moved(c, L[n-1]) then None
    else if StillSince(c, L, n - 1).None? && Still(c, L[n-1]) then Some(L[n-1].ts)
    else StillSince(c, L, n - 1)
  }

  /** Fix `n` finds the asset stationary inside for as long as the rule allows. */
  predicate DwellDue(c: Config, L: seq<Reading>, n: nat)
    requires n < |L|
  {
    Inside(c, L, n + 1) && Still(c, L[n]) && StillSince(c, L, n).Some?
    && L[n].ts - StillSince(c, L, n).value >= c.dwell.value
  }

  predicate DwellAlarmed(c: Config, L: seq<Reading>, n: nat)
    requires n <= |L|
  {
    n > 0 && Inside(c, L, n) && !Moved(c, L[n-1]) && (DwellAlarmed(c, L, n - 1) || DwellDue(c, L, n - 1))
  }

  ghost predicate RulesHold(c: Config, L: seq<Reading>, n: nat, s: State)
    requires n <= |L|
  {
    && s.overConsec == OverRun(c, L, n) && s.overFired == OverAlarmed(c, L, n)
    && s.stationarySince == StillSince(c, L, n) && s.dwellFired == DwellAlarmed(c, L, n)
  }

  lemma SteppedRules(c: Config, s: State, r: Reading)
    ensures var (t, transition) := Stepped(c, s, r);
            if transition == Exit then t.overConsec == 0 && !t.overFired && t.stationarySince == None && !t.dwellFired
            else t.overConsec == s.overConsec && t.overFired == s.overFired
                 && t.stationarySince == s.stationarySince && t.dwellFired == s.dwellFired
  {
  }

  lemma {:induction false} StepRules(c: Config, class_: nat, L: seq<Reading>, n: nat, s: State)
    requires c.Ok() && Rising(L) && n < |L| && Holds(c, L, n, s) && RulesHold(c, L, n, s)
    ensures RulesHold(c, L, n + 1, Live(c, class_, s, L[n]).0)
    ensures var a := Live(c, class_, s, L[n]).1;
            && (Breach(L[n].ts) in a <==>
                !Inside(c, L, n) && Inside(c, L, n + 1) && c.restricted && class_ !in c.authorized)
            && (Overspeed(L[n].ts) in a <==>
                  Inside(c, L, n + 1) && Over(c, L[n]) && OverRun(c, L, n + 1) >= c.overConsecutive &&
                    !OverAlarmed(c, L, n))
            && (forall since :: Dwell(L[n].ts, since) in a <==>
                  DwellDue(c, L, n) && !DwellAlarmed(c, L, n) && StillSince(c, L, n) == Some(since))
  {
    StepHolds(c, class_, L, n, s);
    SteppedRules(c, s, L[n]);
    var (t, transition) := Stepped(c, s, L[n]);
    assert Inside(c, L, n + 1) == t.inside;
    hide Stepped, Enters, Leaves, Rising;
    if !Inside(c, L, n) {
      assert OverRun(c, L, n) == 0 && !OverAlarmed(c, L, n) && StillSince(c, L, n).None? && !DwellAlarmed(c, L, n);
    }
    hide Inside, Holds;
    RulesStep(c, L, n, t);
  }

  lemma {:induction false} RulesStep(c: Config, L: seq<Reading>, n: nat, t: State)
    requires n < |L| && t.inside == Inside(c, L, n + 1)
    requires t.inside ==> RulesHold(c, L, n, t)
    requires !t.inside ==> t.overConsec == 0 && !t.overFired && t.stationarySince == None && !t.dwellFired
    ensures RulesHold(c, L, n + 1, if t.inside then InZone(c, t, L[n]).0 else t)
    ensures t.inside ==> var a := InZone(c, t, L[n]).1;
      && Breach(L[n].ts) !in a
      && (Overspeed(L[n].ts) in a <==>
            Over(c, L[n]) && OverRun(c, L, n + 1) >= c.overConsecutive && !OverAlarmed(c, L, n))
      && (forall since :: Dwell(L[n].ts, since) in a <==>
            DwellDue(c, L, n) && !DwellAlarmed(c, L, n) && StillSince(c, L, n) == Some(since))
  {
    hide Inside;
  }

  lemma {:induction false} RulesAlways(c: Config, class_: nat, L: seq<Reading>, n: nat)
    requires c.Ok() && Rising(L) && n <= |L|
    ensures RulesHold(c, L, n, After(c, class_, L, n))
  {
    hide Live, RulesHold;
    if n > 0 {
      RulesAlways(c, class_, L, n - 1);
      AlwaysHolds(c, class_, L, n - 1);
      StepRules(c, class_, L, n - 1, After(c, class_, L, n - 1));
    } else {
      NothingYet(c, class_, L);
    }
  }

  lemma NothingYet(c: Config, class_: nat, L: seq<Reading>)
    ensures RulesHold(c, L, 0, After(c, class_, L, 0))
  {
  }

  /** The alarms of a live run, exactly. */
  lemma {:induction false} AlarmsExactly(c: Config, class_: nat, L: seq<Reading>, n: nat)
    requires c.Ok() && Rising(L) && n < |L|
    ensures var a := AlarmsAt(c, class_, L, n);
            && (Breach(L[n].ts) in a <==>
                !Inside(c, L, n) && Inside(c, L, n + 1) && c.restricted && class_ !in c.authorized)
            && (Overspeed(L[n].ts) in a <==>
                  Inside(c, L, n + 1) && Over(c, L[n]) && OverRun(c, L, n + 1) >= c.overConsecutive &&
                    !OverAlarmed(c, L, n))
            && (forall since :: Dwell(L[n].ts, since) in a <==>
                  DwellDue(c, L, n) && !DwellAlarmed(c, L, n) && StillSince(c, L, n) == Some(since))
  {
    hide Live, RulesHold, Holds;
    AlwaysHolds(c, class_, L, n);
    RulesAlways(c, class_, L, n);
    StepRules(c, class_, L, n, After(c, class_, L, n));
  }

  /** Overspeed fires again only after a fix at or below the limit, or a time outside. */
  lemma {:induction false} OverspeedRearms(c: Config, class_: nat, L: seq<Reading>, m: nat, n: nat) returns (x: nat)
    requires c.Ok() && Rising(L) && m < n < |L|
    requires Overspeed(L[m].ts) in AlarmsAt(c, class_, L, m) && Overspeed(L[n].ts) in AlarmsAt(c, class_, L, n)
    ensures m < x < n && (Slow(c, L[x]) || !Inside(c, L, x + 1))
  {
    hide AlarmsAt, Inside, Over, Slow, OverRun;
    AlarmsExactly(c, class_, L, m);
    AlarmsExactly(c, class_, L, n);
    assert OverAlarmed(c, L, m + 1) by {
      NotBoth(c, L[m]);
    }
    x := n - 1;
    while OverAlarmed(c, L, x + 1) || !OverAlarmed(c, L, x)
      invariant m < x < n && !OverAlarmed(c, L, x + 1)
      decreases x
    {
      x := x - 1;
    }
  }

  lemma NotBoth(c: Config, r: Reading)
    ensures !(Over(c, r) && Slow(c, r)) && !(Still(c, r) && Moved(c, r))
  {
  }

  /** Dwell fires again only after a moving fix, or a time outside. */
  lemma {:induction false} DwellRearms(c: Config, class_: nat, L: seq<Reading>, m: nat, n: nat, a: int,
                                       b: int) returns (x: nat)
    requires c.Ok() && Rising(L) && m < n < |L|
    requires Dwell(L[m].ts, a) in AlarmsAt(c, class_, L, m) && Dwell(L[n].ts, b) in AlarmsAt(c, class_, L, n)
    ensures m < x < n && (Moved(c, L[x]) || !Inside(c, L, x + 1))
  {
    hide AlarmsAt, Inside, Moved, Still, StillSince;
    AlarmsExactly(c, class_, L, m);
    AlarmsExactly(c, class_, L, n);
    assert DwellAlarmed(c, L, m + 1) by {
      NotBoth(c, L[m]);
    }
    x := n - 1;
    while DwellAlarmed(c, L, x + 1) || !DwellAlarmed(c, L, x)
      invariant m < x < n && !DwellAlarmed(c, L, x + 1)
      decreases x
    {
      x := x - 1;
    }
  }
}

/** A site's shifts, at a fixed offset from UTC, and the reports queued when each has ended. */
module Shifts {
  import opened Wrappers

  const HOUR := 3_600_000_000  // times are in microseconds
  const DAY := 24 * HOUR

  /** A shift definition: it starts at a local hour and lasts so many hours. */
  datatype Definition = Definition(name: nat, startHour: nat, hours: nat)

  /** One shift: the definition's, starting on the given local day. */
  datatype Window = Window(name: nat, day: int, start: int, end: int)

  predicate OkDefs(defs: seq<Definition>) {
    forall i :: 0 <= i < |defs| ==> defs[i].startHour < 24
  }

  predicate DistinctNames(defs: seq<Definition>) {
    forall i, k :: 0 <= i < k < |defs| ==> defs[i].name != defs[k].name
  }

  ghost predicate NoneTwice<T>(list: seq<T>) {
    forall i, k :: 0 <= i < k < |list| ==> list[i] != list[k]
  }

  function WindowOf(d: Definition, day: int, offset: int): Window {
    var start := day * DAY + d.startHour * HOUR - offset;
    Window(d.name, day, start, start + d.hours * HOUR)
  }

  /** The local day of a time. */
  function DayOf(t: int, offset: int): int {
    (t + offset) / DAY
  }

  lemma DayHolds(t: int, offset: int)
    ensures DayOf(t, offset) * DAY <= t + offset < DayOf(t, offset) * DAY + DAY
  {
  }

  // ---- shifts that ended in a span ------------------------------------------------------------

  predicate EndsIn(w: Window, after: int, until: int) {
    after < w.end <= until
  }

  function LongestHours(defs: seq<Definition>): (h: nat)
    ensures forall i :: 0 <= i < |defs| ==> defs[i].hours <= h
  {
    if |defs| == 0 then 0
    else
      var rest := LongestHours(defs[..|defs|-1]);
      assert forall i :: 0 <= i < |defs| - 1 ==> defs[i] == defs[..|defs|-1][i];
      if defs[|defs|-1].hours > rest then defs[|defs|-1].hours else rest
  }

  /** The window was found: the `i`-th definition's, on the given day. */
  ghost predicate IsShift(defs: seq<Definition>, offset: int, w: Window) {
    exists i :: 0 <= i < |defs| && w == WindowOf(defs[i], w.day, offset)
  }

  /** A shift ending after `after` starts no earlier than the day the search does. */
  lemma StartsInSearch(defs: seq<Definition>, offset: int, i: nat, day: int, after: int)
    requires OkDefs(defs) && i < |defs| && WindowOf(defs[i], day, offset).end > after
    ensures day >= DayOf(after, offset) - (LongestHours(defs) / 24 + 1)
  {
    DayHolds(after, offset);
    var longest := LongestHours(defs) / 24 + 1;
    assert defs[i].hours < 24 * longest;
  }

  /** A shift ending by `until` starts by its day. */
  lemma StartsByEnd(defs: seq<Definition>, offset: int, i: nat, day: int, until: int)
    requires OkDefs(defs) && i < |defs| && WindowOf(defs[i], day, offset).end <= until
    ensures day <= DayOf(until, offset)
  {
    DayHolds(until, offset);
  }

  /** Every shift that ended in the span, each once. */
  method WindowsEndingBetween(defs: seq<Definition>, offset: int, after: int, until: int) returns (out: seq<Window>)
    requires OkDefs(defs) && DistinctNames(defs)
    ensures forall w :: w in out <==> IsShift(defs, offset, w) && EndsIn(w, after, until)
    ensures NoneTwice(out)
  {
    var longestDays := LongestHours(defs) / 24 + 1;
    var first := DayOf(after, offset) - longestDays;
    var day := first;
    var last := DayOf(until, offset);
    out := [];
    hide LongestHours;
    while day <= last
      invariant forall w :: w in out ==> IsShift(defs, offset, w) && EndsIn(w, after, until) && first <= w.day < day
      invariant forall w :: IsShift(defs, offset, w) && EndsIn(w, after, until) && first <= w.day < day ==> w in out
      invariant NoneTwice(out)
      decreases last - day
    {
      var found := OfDay(defs, offset, after, until, day);
      TwoLists(out, found);
      out := out + found;
      day := day + 1;
    }
    forall w | IsShift(defs, offset, w) && EndsIn(w, after, until) ensures w in out {
      var i :| 0 <= i < |defs| && w == WindowOf(defs[i], w.day, offset);
      StartsInSearch(defs, offset, i, w.day, after);
      StartsByEnd(defs, offset, i, w.day, until);
    }
  }

  lemma TwoLists<T>(a: seq<T>, b: seq<T>)
    requires NoneTwice(a) && NoneTwice(b) && forall x :: x in a ==> x !in b
    ensures NoneTwice(a + b)
  {
    forall i, k | 0 <= i < k < |a + b| ensures (a + b)[i] != (a + b)[k] {
      if i < |a| <= k {
        assert a[i] in a && b[k - |a|] in b;
      }
    }
  }

  /** The shifts starting on one day that ended in the span. */
  method OfDay(defs: seq<Definition>, offset: int, after: int, until: int, day: int) returns (out: seq<Window>)
    requires DistinctNames(defs)
    ensures forall w :: w in out <==> IsShift(defs, offset, w) && EndsIn(w, after, until) && w.day == day
    ensures NoneTwice(out)
  {
    out := [];
    for n := 0 to |defs|
      invariant forall w :: w in out <==>
        w.day == day && EndsIn(w, after, until) && exists i :: 0 <= i < n && w == WindowOf(defs[i], day, offset)
      invariant NoneTwice(out)
    {
      var w := WindowOf(defs[n], day, offset);
      if after < w.end && w.end <= until {
        NotYet(defs, offset, day, n);
        out := out + [w];
      }
    }
  }

  lemma NotYet(defs: seq<Definition>, offset: int, day: int, n: nat)
    requires n < |defs| && DistinctNames(defs)
    ensures forall i :: 0 <= i < n ==> WindowOf(defs[i], day, offset) != WindowOf(defs[n], day, offset)
  {
  }

  // ---- the shift a moment falls in ------------------------------------------------------------

  predicate Holds(w: Window, at: int) {
    w.start <= at < w.end
  }

  /** The local hour of a time. */
  function HourOf(t: int, offset: int): (h: int)
    ensures 0 <= h < 24
  {
    DayHolds(t, offset);
    (t + offset - DayOf(t, offset) * DAY) / HOUR
  }

  lemma HourHolds(t: int, offset: int)
    ensures DayOf(t, offset) * DAY + HourOf(t, offset) * HOUR <= t + offset
    ensures t + offset < DayOf(t, offset) * DAY + (HourOf(t, offset) + 1) * HOUR
  {
  }

  /** In local hours: the shift of the moment's own day has begun and is not over, ... */
  predicate RunsToday(d: Definition, hour: int) {
    d.startHour <= hour < d.startHour + d.hours
  }

  /** ... and that of the day before is not over yet. */
  predicate RunsOver(d: Definition, hour: int) {
    d.startHour <= hour + 24 < d.startHour + d.hours
  }

  /** A shift holds a moment exactly when it does by the clock on the wall. */
  lemma HoldsByHour(d: Definition, at: int, offset: int)
    ensures Holds(WindowOf(d, DayOf(at, offset), offset), at) <==> RunsToday(d, HourOf(at, offset))
    ensures Holds(WindowOf(d, DayOf(at, offset) - 1, offset), at) <==> RunsOver(d, HourOf(at, offset))
  {
    var day, h := DayOf(at, offset), HourOf(at, offset);
    HourHolds(at, offset);
    hide DayOf, HourOf;
    HoursBefore(d.startHour, h, at + offset - day * DAY);
    HoursBefore(d.startHour + d.hours, h, at + offset - day * DAY);
    HoursBefore(d.startHour - 24, h, at + offset - day * DAY);
    HoursBefore(d.startHour + d.hours - 24, h, at + offset - day * DAY);
  }

  lemma HoursBefore(hours: int, h: int, t: int)
    requires h * HOUR <= t < (h + 1) * HOUR
    ensures hours * HOUR <= t <==> hours <= h
  {
  }

  /** A shift starts on its day at its local hour, and lasts its hours. */
  lemma StartsLocally(d: Definition, day: int, offset: int)
    requires d.startHour < 24
    ensures var w := WindowOf(d, day, offset);
            && w.name == d.name && w.day == day == DayOf(w.start, offset) && w.end - w.start == d.hours * HOUR
            && w.start + offset == day * DAY + d.startHour * HOUR && HourOf(w.start, offset) == d.startHour
  {
    var w := WindowOf(d, day, offset);
    HourHolds(w.start, offset);
    DayHolds(w.start, offset);
    hide DayOf, HourOf;
    OnDay(day, DayOf(w.start, offset), w.start + offset);
    HoursBefore(d.startHour, HourOf(w.start, offset), w.start + offset - day * DAY);
    HoursBefore(d.startHour + 1, HourOf(w.start, offset), w.start + offset - day * DAY);
  }

  lemma OnDay(day: int, today: int, t: int)
    requires today * DAY <= t < today * DAY + DAY && day * DAY <= t < day * DAY + DAY
    ensures today == day
  {
  }

  /** Looks on the moment's own day and the one before. */
  method ResolveShift(defs: seq<Definition>, offset: int, at: int) returns (w: Option<Window>)
    ensures w.Some? ==> IsShift(defs, offset, w.value) && Holds(w.value, at)
    ensures w.None? <==> forall i, day :: 0 <= i < |defs| && DayOf(at, offset) - 1 <= day <= DayOf(at, offset) ==>
      !Holds(WindowOf(defs[i], day, offset), at)
    ensures w.None? <==> forall i :: 0 <= i < |defs| ==>
      !RunsToday(defs[i], HourOf(at, offset)) && !RunsOver(defs[i], HourOf(at, offset))
    ensures (exists i :: 0 <= i < |defs| && RunsToday(defs[i], HourOf(at, offset))) ==>
      w.Some? && w.value.day == DayOf(at, offset)
  {
    forall i | 0 <= i < |defs|
      ensures Holds(WindowOf(defs[i], DayOf(at, offset), offset), at) <==> RunsToday(defs[i], HourOf(at, offset))
      ensures Holds(WindowOf(defs[i], DayOf(at, offset) - 1, offset), at) <==> RunsOver(defs[i], HourOf(at, offset))
    {
      HoldsByHour(defs[i], at, offset);
    }
    hide HourOf, RunsToday, RunsOver, Holds, IsShift, DayOf;
    var today := DayOf(at, offset);
    w := ResolveOn(defs, offset, at, today);
    if w.None? {
      w := ResolveOn(defs, offset, at, today - 1);
    }
  }

  method ResolveOn(defs: seq<Definition>, offset: int, at: int, day: int) returns (w: Option<Window>)
    ensures w.Some? ==> IsShift(defs, offset, w.value) && Holds(w.value, at) && w.value.day == day
    ensures w.None? <==> forall i :: 0 <= i < |defs| ==> !Holds(WindowOf(defs[i], day, offset), at)
    ensures w.Some? ==> exists i :: 0 <= i < |defs| && Holds(WindowOf(defs[i], day, offset), at)
  {
    for n := 0 to |defs|
      invariant forall i :: 0 <= i < n ==> !Holds(WindowOf(defs[i], day, offset), at)
    {
      var x := WindowOf(defs[n], day, offset);
      if x.start <= at && at < x.end {
        return Some(x);
      }
    }
    return None;
  }

  /** Two days are enough for a definition exactly when it ends by the end of the second. */
  lemma {:induction false} TwoDaysEnough(d: Definition, offset: int)
    requires d.startHour < 24
    ensures d.startHour + d.hours <= 48 <==>
      forall day, at :: Holds(WindowOf(d, day, offset), at) ==> DayOf(at, offset) - 1 <= day <= DayOf(at, offset)
  {
    if d.startHour + d.hours <= 48 {
      forall day, at | Holds(WindowOf(d, day, offset), at) ensures DayOf(at, offset) - 1 <= day <= DayOf(at, offset) {
        DayHolds(at, offset);
        assert (d.startHour + d.hours) * HOUR <= 2 * DAY;
        DayBetween(day, DayOf(at, offset), at + offset);
      }
    } else {
      var at := 2 * DAY - offset;
      assert Holds(WindowOf(d, 0, offset), at) by {
        assert (d.startHour + d.hours) * HOUR > 2 * DAY;
      }
      assert DayOf(at, offset) == 2;
    }
  }

  lemma DayBetween(day: int, today: int, t: int)
    requires today * DAY <= t < today * DAY + DAY && day * DAY <= t < day * DAY + 2 * DAY
    ensures today - 1 <= day <= today
  {
  }

  // ---- reports --------------------------------------------------------------------------------

  /** What tells shifts apart in their ids. */
  datatype ShiftId = ShiftId(day: int, name: nat)

  datatype Delivery = Delivery(shift: ShiftId, target: nat)

  function IdOf(w: Window): ShiftId {
    ShiftId(w.day, w.name)
  }

  /** Names are distinct, so an id names one shift. */
  lemma IdsDiffer(defs: seq<Definition>, offset: int, w: Window, x: Window)
    requires DistinctNames(defs)
    requires IsShift(defs, offset, w) && IsShift(defs, offset, x) && IdOf(w) == IdOf(x)
    ensures w == x
  {
    var i :| 0 <= i < |defs| && w == WindowOf(defs[i], w.day, offset);
    var k :| 0 <= k < |defs| && x == WindowOf(defs[k], x.day, offset);
    assert defs[i].name == defs[k].name;
  }

  datatype Settings = Settings(defs: seq<Definition>, offset: int, targets: seq<nat>, delay: nat, catchup: nat)
  {
    predicate Ok() {
      OkDefs(defs) && DistinctNames(defs)
    }
  }

  /** A report due: of a shift that ended in the span, to a recipient. */
  ghost predicate Due(s: Settings, after: int, until: int, d: Delivery) {
    d.target in s.targets && exists w :: IsShift(s.defs, s.offset, w) && EndsIn(w, after, until) && IdOf(w) == d.shift
  }

  /** The deliveries queued are those due in the span, each once. */
  ghost predicate Covers(s: Settings, rows: seq<Delivery>, after: int, until: int) {
    && (forall d :: d in rows <==> Due(s, after, until, d))
    && NoneTwice(rows)
  }

  /** Adds what the catch-up span before `now - delay` makes due and the rows lack. */
  method QueueDueReports(s: Settings, rows: seq<Delivery>, now: int) returns (after: seq<Delivery>, added: nat)
    requires s.Ok() && NoneTwice(rows)
    ensures rows <= after && added == |after| - |rows|
    ensures forall d :: d in after <==> d in rows || Due(s, now - s.delay - s.catchup * HOUR, now - s.delay, d)
    ensures NoneTwice(after)
  {
    var until := now - s.delay;
    var since := until - s.catchup * HOUR;
    var windows := WindowsEndingBetween(s.defs, s.offset, since, until);
    after, added := rows, 0;
    hide IsShift, EndsIn, OkDefs;
    for n := 0 to |windows|
      invariant rows <= after && added == |after| - |rows|
      invariant forall d :: d in after <==>
        d in rows || (d.target in s.targets && exists i :: 0 <= i < n && IdOf(windows[i]) == d.shift)
      invariant NoneTwice(after)
    {
      var more := QueueFor(s.targets, after, IdOf(windows[n]));
      added := added + (|more| - |after|);
      after := more;
    }
    forall d ensures d in after <==> d in rows || Due(s, since, until, d) {
      if d.target in s.targets && exists i :: 0 <= i < |windows| && IdOf(windows[i]) == d.shift {
        var i :| 0 <= i < |windows| && IdOf(windows[i]) == d.shift;
        assert windows[i] in windows;
      }
      if Due(s, since, until, d) {
        var w :| IsShift(s.defs, s.offset, w) && EndsIn(w, since, until) && IdOf(w) == d.shift;
        assert w in windows;
      }
    }
  }

  /** One shift's report to each recipient still without it. */
  method QueueFor(targets: seq<nat>, rows: seq<Delivery>, shift: ShiftId) returns (after: seq<Delivery>)
    requires NoneTwice(rows)
    ensures rows <= after && forall d :: d in after <==> d in rows || (d.target in targets && d.shift == shift)
    ensures NoneTwice(after)
  {
    after := rows;
    for n := 0 to |targets|
      invariant rows <= after
      invariant forall d :: d in after <==>
        d in rows || (d.shift == shift && exists i :: 0 <= i < n && targets[i] == d.target)
      invariant NoneTwice(after)
    {
      var d := Delivery(shift, targets[n]);
      if d !in after {
        after := after + [d];
      }
    }
  }

  /** Spans that meet or overlap make one span. */
  lemma {:induction false} Joined(s: Settings, a: int, b: int, since: int, c: int, d: Delivery)
    requires since <= b <= c && a <= since
    ensures Due(s, a, b, d) || Due(s, since, c, d) <==> Due(s, a, c, d)
  {
    hide IsShift;
    if Due(s, a, c, d) {
      var w :| IsShift(s.defs, s.offset, w) && EndsIn(w, a, c) && IdOf(w) == d.shift;
      assert EndsIn(w, a, b) || EndsIn(w, since, c);
    }
    if Due(s, a, b, d) {
      var w :| IsShift(s.defs, s.offset, w) && EndsIn(w, a, b) && IdOf(w) == d.shift;
      assert EndsIn(w, a, c);
    }
    if Due(s, since, c, d) {
      var w :| IsShift(s.defs, s.offset, w) && EndsIn(w, since, c) && IdOf(w) == d.shift;
      assert EndsIn(w, a, c);
    }
  }

  /** Ticks in order, never further apart than the catch-up time. */
  ghost predicate Regular(s: Settings, ticks: seq<int>) {
    forall i :: 0 < i < |ticks| ==> ticks[i-1] <= ticks[i] <= ticks[i-1] + s.catchup * HOUR
  }

  /** A shift is due in a span exactly when it ended there: its id names no other. */
  lemma {:induction false} DueIsEnded(s: Settings, after: int, until: int, w: Window, target: nat)
    requires s.Ok() && IsShift(s.defs, s.offset, w) && target in s.targets
    ensures Due(s, after, until, Delivery(IdOf(w), target)) <==> EndsIn(w, after, until)
  {
    hide IsShift, EndsIn, IdOf, OkDefs;
    if Due(s, after, until, Delivery(IdOf(w), target)) {
      var x :| IsShift(s.defs, s.offset, x) && EndsIn(x, after, until) && IdOf(x) == IdOf(w);
      IdsDiffer(s.defs, s.offset, w, x);
    }
  }

  /** Every shift that ended in the span the ticks cover is queued once for each recipient, and
      nothing else is. */
  method Run(s: Settings, ticks: seq<int>) returns (rows: seq<Delivery>)
    requires s.Ok() && |ticks| > 0 && Regular(s, ticks)
    ensures var after, until := ticks[0] - s.delay - s.catchup * HOUR, ticks[|ticks|-1] - s.delay;
            && Covers(s, rows, after, until)
            && forall w, target :: IsShift(s.defs, s.offset, w) && target in s.targets ==>
                 (Delivery(IdOf(w), target) in rows <==> EndsIn(w, after, until))
  {
    ghost var from := ticks[0] - s.delay - s.catchup * HOUR;
    var added;
    rows, added := QueueDueReports(s, [], ticks[0]);
    hide Due;
    for n := 1 to |ticks|
      invariant Covers(s, rows, from, ticks[n-1] - s.delay)
      invariant ticks[0] <= ticks[n-1]
    {
      ghost var before := rows;
      rows, added := QueueDueReports(s, rows, ticks[n]);
      forall d ensures d in rows <==> Due(s, from, ticks[n] - s.delay, d) {
        assert d in before <==> Due(s, from, ticks[n-1] - s.delay, d);
        Joined(s, from, ticks[n-1] - s.delay, ticks[n] - s.delay - s.catchup * HOUR, ticks[n] - s.delay, d);
      }
    }
    ghost var until := ticks[|ticks|-1] - s.delay;
    forall w, target | IsShift(s.defs, s.offset, w) && target in s.targets
      ensures Delivery(IdOf(w), target) in rows <==> EndsIn(w, from, until)
    {
      DueIsEnded(s, from, until, w, target);
    }
  }
}

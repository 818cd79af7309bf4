/** Live processing of one asset's fixes as they are delivered: in order, late, repeated, or with a
    clock that runs ahead.

    What is delivered leaves the zone rows, and raises the alarms, of the fixes that move the newest
    time on, and of no others, if and only if no watermark is ever put right; and with deliveries
    processed in the order of their stamps none is. */
module Pipeline {
  import opened Wrappers
  import opened Zones

  type ZoneId = nat

  /** A fix: where it lies for each zone, and its speed. */
  datatype Fix = Fix(ts: int, places: ZoneId -> (bool, real), speed: Option<real>)
  {
    function Seen(z: ZoneId): Reading {
      Reading(ts, places(z).0, places(z).1, speed)
    }
  }

  /** A delivery: the fix, the server's time when it is checked, and when it is stamped. */
  datatype Delivery = Delivery(fix: Fix, now: int, received: int)

  datatype Settings = Settings(maxSkew: nat, class_: nat)

  /** A fix is refused when its device's clock is ahead of the server's by more than the skew. */
  predicate Refused(s: Settings, d: Delivery) {
    d.fix.ts - d.now > s.maxSkew
  }

  /** What processing a newly stored fix does to one zone's row: skip it when it is late, and put
      right a row whose watermark lies in the future. */
  function Visited(c: Config, s: Settings, row: State, r: Reading, received: int): (State, seq<Alarm>) {
    if row.lastTs.Some? && row.lastTs.value > received + s.maxSkew then
      if r.ts < received - s.maxSkew then (row, [])
      else
        Live(c, s.class_,
             if row.stationarySince.Some? && row.stationarySince.value > r.ts
             then row.(stationarySince := None, dwellFired := false) else row, r)
    else if row.lastTs.Some? && r.ts <= row.lastTs.value then (row, [])
    else Live(c, s.class_, row, r)
  }

  function RowOf(rows: map<ZoneId, State>, z: ZoneId): State {
    if z in rows then rows[z] else NEW
  }

  function AlarmsOf(alarms: seq<(ZoneId, Alarm)>, z: ZoneId): seq<Alarm> {
    if |alarms| == 0 then []
    else AlarmsOf(alarms[..|alarms|-1], z) + (if alarms[|alarms|-1].0 == z then [alarms[|alarms|-1].1] else [])
  }

  function Tagged(z: ZoneId, alarms: seq<Alarm>): seq<(ZoneId, Alarm)> {
    if |alarms| == 0 then [] else Tagged(z, alarms[..|alarms|-1]) + [(z, alarms[|alarms|-1])]
  }

  lemma {:induction false} AlarmsApart(a: seq<(ZoneId, Alarm)>, z: ZoneId, more: seq<Alarm>, y: ZoneId)
    ensures AlarmsOf(a + Tagged(z, more), y) == AlarmsOf(a, y) + (if y == z then more else [])
  {
    if |more| == 0 {
      assert a + Tagged(z, more) == a;
    } else {
      var init, last := more[..|more|-1], more[|more|-1];
      AlarmsApart(a, z, init, y);
      var sofar := a + Tagged(z, init);
      assert a + Tagged(z, more) == sofar + [(z, last)];
      assert more == init + [last];
      hide AlarmsOf, Tagged;
      AlarmsMore(sofar, z, last, y);
    }
  }

  lemma AlarmsMore(a: seq<(ZoneId, Alarm)>, z: ZoneId, x: Alarm, y: ZoneId)
    ensures AlarmsOf(a + [(z, x)], y) == AlarmsOf(a, y) + (if y == z then [x] else [])
  {
    assert (a + [(z, x)])[..|a|] == a;
  }

  /** The first `n` zones have seen the fix. */
  ghost predicate Swept(zones: seq<(ZoneId, Config)>, s: Settings, n: nat, f: Fix, received: int,
                        before: map<ZoneId, State>, rows: map<ZoneId, State>, alarms: seq<(ZoneId, Alarm)>)
    requires n <= |zones|
  {
    forall i :: 0 <= i < |zones| ==> SweptAt(zones[i], s, i < n, f, received, before, rows, alarms)
  }

  ghost predicate SweptAt(zone: (ZoneId, Config), s: Settings, done: bool, f: Fix, received: int,
                          before: map<ZoneId, State>, rows: map<ZoneId, State>, alarms: seq<(ZoneId, Alarm)>)
  {
    var (after, raised) := Visited(zone.1, s, RowOf(before, zone.0), f.Seen(zone.0), received);
    RowOf(rows, zone.0) == (if done then after else RowOf(before, zone.0))
    && AlarmsOf(alarms, zone.0) == (if done then raised else [])
  }

  ghost predicate Distinct(zones: seq<(ZoneId, Config)>) {
    forall i, j :: 0 <= i < j < |zones| ==> zones[i].0 != zones[j].0
  }

  lemma {:induction false} SweepOne(zones: seq<(ZoneId, Config)>, s: Settings, n: nat, f: Fix, received: int,
                                    before: map<ZoneId, State>, rows: map<ZoneId, State>, alarms: seq<(ZoneId, Alarm)>,
                                    row: State, more: seq<Alarm>)
    requires n < |zones| && Distinct(zones) && Swept(zones, s, n, f, received, before, rows, alarms)
    requires Visited(zones[n].1, s, RowOf(before, zones[n].0), f.Seen(zones[n].0), received) == (row, more)
    ensures Swept(zones, s, n + 1, f, received, before, rows[zones[n].0 := row], alarms + Tagged(zones[n].0, more))
  {
    hide Visited, Tagged, AlarmsOf;
    forall i | 0 <= i < |zones|
      ensures SweptAt(zones[i], s, i < n + 1, f, received, before, rows[zones[n].0 := row],
                      alarms + Tagged(zones[n].0, more))
    {
      assert SweptAt(zones[i], s, i < n, f, received, before, rows, alarms);
      AlarmsApart(alarms, zones[n].0, more, zones[i].0);
    }
  }

  class Asset {
    const zones: seq<(ZoneId, Config)>
    const s: Settings
    var stored: set<int>
    var rows: map<ZoneId, State>

    constructor (zones: seq<(ZoneId, Config)>, s: Settings)
      ensures this.zones == zones && this.s == s && stored == {} && rows == map[]
    {
      this.zones, this.s := zones, s;
      stored, rows := {}, map[];
    }

    /** One zone's turn: its row is loaded, or made, stepped and written back. */
    method Visit(zone: (ZoneId, Config), f: Fix, received: int) returns (row: State, alarms: seq<Alarm>)
      ensures (row, alarms) == Visited(zone.1, s, RowOf(rows, zone.0), f.Seen(zone.0), received)
    {
      var c, r := zone.1, f.Seen(zone.0);
      row, alarms := RowOf(rows, zone.0), [];
      if row.lastTs.Some? {
        if row.lastTs.value > received + s.maxSkew {
          if r.ts < received - s.maxSkew {
            return;
          }
          if row.stationarySince.Some? && row.stationarySince.value > r.ts {
            row := row.(stationarySince := None, dwellFired := false);
          }
        } else if r.ts <= row.lastTs.value {
          return;
        }
      }
      row, alarms := Process(c, row, r);
    }

    method Process(c: Config, row: State, r: Reading) returns (after: State, alarms: seq<Alarm>)
      ensures (after, alarms) == Live(c, s.class_, row, r)
    {
      hide Stepped, InZone;
      var z := new ZoneRow(row);
      var transition := z.Step(c, r);
      alarms := if transition == Entry && c.restricted && s.class_ !in c.authorized then [Breach(r.ts)] else [];
      if z.inside {
        var more := z.OnInzoneFix(c, r);
        alarms := alarms + more;
      } else {
        assert alarms == alarms + [];
      }
      z.lastTs := Some(r.ts);
      after := z.Snap();
    }

    /** Checks, stores and processes one delivery. */
    method Deliver(d: Delivery) returns (created: bool, alarms: seq<(ZoneId, Alarm)>)
      requires Distinct(zones)
      modifies `stored, `rows
      ensures created <==> !Refused(s, d) && d.fix.ts !in old(stored)
      ensures stored == if created then old(stored) + {d.fix.ts} else old(stored)
      ensures created ==> Swept(zones, s, |zones|, d.fix, d.received, old(rows), rows, alarms)
      ensures !created ==> rows == old(rows) && alarms == []
    {
      alarms := [];
      created := !Refused(s, d) && d.fix.ts !in stored;
      if !created {
        return;
      }
      stored := stored + {d.fix.ts};
      ghost var before := rows;
      assert Swept(zones, s, 0, d.fix, d.received, before, rows, alarms);
      hide Visited, Tagged, AlarmsOf, Distinct;
      for n := 0 to |zones|
        invariant Swept(zones, s, n, d.fix, d.received, before, rows, alarms) && stored == old(stored) + {d.fix.ts}
      {
        var row, more := Visit(zones[n], d.fix, d.received);
        assert SweptAt(zones[n], s, n < n, d.fix, d.received, before, rows, alarms);
        SweepOne(zones, s, n, d.fix, d.received, before, rows, alarms, row, more);
        rows := rows[zones[n].0 := row];
        alarms := alarms + Tagged(zones[n].0, more);
      }
    }
  }

  // ---- whole runs -----------------------------------------------------------------------------

  /** A delivery is stamped after it is checked. */
  ghost predicate Stamped(D: seq<Delivery>) {
    forall i :: 0 <= i < |D| ==> D[i].now <= D[i].received
  }

  /** Deliveries are processed in the order of their stamps.  (Two transports stamp before they wait
      for the asset's lock, and so need not be.) */
  ghost predicate InStampOrder(D: seq<Delivery>) {
    forall i, j :: 0 <= i < j < |D| ==> D[i].received <= D[j].received
  }

  /** The times stored by the first `n` deliveries. */
  function Times(s: Settings, D: seq<Delivery>, n: nat): set<int>
    requires n <= |D|
  {
    if n == 0 then {} else Times(s, D, n - 1) + (if Refused(s, D[n-1]) then {} else {D[n-1].fix.ts})
  }

  /** One zone's row after the first `n` deliveries. */
  function Row(c: Config, s: Settings, z: ZoneId, D: seq<Delivery>, n: nat): State
    requires n <= |D|
    decreases n, 0
  {
    if n == 0 then NEW else Outcome(c, s, z, D, n - 1).0
  }

  function Outcome(c: Config, s: Settings, z: ZoneId, D: seq<Delivery>, n: nat): (State, seq<Alarm>)
    requires n < |D|
    decreases n, 1
  {
    if Refused(s, D[n]) || D[n].fix.ts in Times(s, D, n) then (Row(c, s, z, D, n), [])
    else Visited(c, s, Row(c, s, z, D, n), D[n].fix.Seen(z), D[n].received)
  }

  function Raised(c: Config, s: Settings, z: ZoneId, D: seq<Delivery>, n: nat): seq<Alarm>
    requires n <= |D|
  {
    if n == 0 then [] else Raised(c, s, z, D, n - 1) + Outcome(c, s, z, D, n - 1).1
  }

  /** The admitted fixes that are newer than every one before. */
  function Front(s: Settings, z: ZoneId, D: seq<Delivery>, n: nat): (L: seq<Reading>)
    requires n <= |D|
  {
    if n == 0 then []
    else
      var L := Front(s, z, D, n - 1);
      if !Refused(s, D[n-1]) && (|L| > 0 ==> D[n-1].fix.ts > L[|L|-1].ts) then L + [D[n-1].fix.Seen(z)] else L
  }

  function AllAlarms(c: Config, class_: nat, L: seq<Reading>, n: nat): seq<Alarm>
    requires n <= |L|
  {
    if n == 0 then [] else AllAlarms(c, class_, L, n - 1) + AlarmsAt(c, class_, L, n - 1)
  }

  lemma {:induction false} FrontRises(s: Settings, z: ZoneId, D: seq<Delivery>, n: nat)
    requires n <= |D|
    ensures Rising(Front(s, z, D, n))
    ensures forall t :: t in Times(s, D, n) ==> var L := Front(s, z, D, n); |L| > 0 && t <= L[|L|-1].ts
  {
    if n > 0 {
      FrontRises(s, z, D, n - 1);
    }
  }

  /** Delivery `n` puts a watermark right: it is a live fix, new, and the newest time so far is further
      ahead of its stamp than the skew. */
  ghost predicate Heals(s: Settings, z: ZoneId, D: seq<Delivery>, n: nat)
    requires n < |D|
  {
    var d, L := D[n], Front(s, z, D, n);
    && !Refused(s, d) && d.fix.ts !in Times(s, D, n)
    && |L| > 0 && L[|L|-1].ts > d.received + s.maxSkew && d.fix.ts >= d.received - s.maxSkew
  }

  /** The newest time admitted is never further ahead of a later delivery's stamp than the skew. */
  lemma {:induction false} FrontWithinSkew(s: Settings, z: ZoneId, D: seq<Delivery>, n: nat, received: int)
    requires n <= |D| && Stamped(D) && forall i :: 0 <= i < n ==> D[i].received <= received
    ensures var L := Front(s, z, D, n); |L| > 0 ==> L[|L|-1].ts <= received + s.maxSkew
  {
    if n > 0 {
      FrontWithinSkew(s, z, D, n - 1, received);
    }
  }

  lemma {:induction false} SameLive(c: Config, class_: nat, L: seq<Reading>, x: Reading, n: nat)
    requires n <= |L|
    ensures After(c, class_, L + [x], n) == After(c, class_, L, n)
    ensures AllAlarms(c, class_, L + [x], n) == AllAlarms(c, class_, L, n)
  {
    hide Live;
    if n > 0 {
      SameLive(c, class_, L, x, n - 1);
      assert (L + [x])[n-1] == L[n-1];
    }
  }

  lemma {:induction false} LastTs(c: Config, class_: nat, L: seq<Reading>, n: nat)
    requires n <= |L|
    ensures After(c, class_, L, n).lastTs == if n == 0 then None else Some(L[n-1].ts)
  {
    hide Stepped, InZone;
  }

  /** The row and the alarms after `n` deliveries are those of the fixes that move the newest time on. */
  ghost predicate FrontOnly(c: Config, s: Settings, z: ZoneId, D: seq<Delivery>, n: nat)
    requires n <= |D|
  {
    var L := Front(s, z, D, n);
    Row(c, s, z, D, n) == After(c, s.class_, L, |L|) && Raised(c, s, z, D, n) == AllAlarms(c, s.class_, L, |L|)
  }

  /** Unless a watermark is put right, deliveries leave each zone's row, and raise the alarms, of the
      fixes that move the newest time on: repeats, late fixes and refused ones change nothing. */
  lemma {:induction false} Confluence(c: Config, s: Settings, z: ZoneId, D: seq<Delivery>, n: nat)
    requires n <= |D| && Stamped(D) && forall i :: 0 <= i < n ==> !Heals(s, z, D, i)
    ensures FrontOnly(c, s, z, D, n)
  {
    hide Live, Visited, Refused, Stamped, Heals;
    if n > 0 {
      Confluence(c, s, z, D, n - 1);
      var L, d := Front(s, z, D, n - 1), D[n-1];
      OutcomeIs(c, s, z, D, n - 1, L);
      if |Front(s, z, D, n)| > |L| {
        SameLive(c, s.class_, L, d.fix.Seen(z), |L|);
      } else {
        assert Raised(c, s, z, D, n) == Raised(c, s, z, D, n - 1) + [];
      }
    }
  }

  /** A delivery that puts no watermark right is processed live exactly when it moves the newest time
      on. */
  lemma {:induction false} OutcomeIs(c: Config, s: Settings, z: ZoneId, D: seq<Delivery>, n: nat, L: seq<Reading>)
    requires n < |D| && Stamped(D) && !Heals(s, z, D, n)
    requires L == Front(s, z, D, n) && Row(c, s, z, D, n) == After(c, s.class_, L, |L|)
    ensures Outcome(c, s, z, D, n) ==
      if |Front(s, z, D, n + 1)| > |L| then Live(c, s.class_, Row(c, s, z, D, n), D[n].fix.Seen(z))
      else (Row(c, s, z, D, n), [])
    ensures |Front(s, z, D, n + 1)| > |L| ==> Front(s, z, D, n + 1) == L + [D[n].fix.Seen(z)]
    ensures |Front(s, z, D, n + 1)| <= |L| ==> Front(s, z, D, n + 1) == L
  {
    hide Live, After, Rising, AllAlarms;
    FrontRises(s, z, D, n);
    LastTs(c, s.class_, L, |L|);
  }

  /** One that does puts the watermark back, so the row is no longer that of the newest time. */
  lemma {:induction false} HealsBack(c: Config, s: Settings, z: ZoneId, D: seq<Delivery>, n: nat)
    requires n < |D| && Stamped(D) && Heals(s, z, D, n) && FrontOnly(c, s, z, D, n)
    ensures !FrontOnly(c, s, z, D, n + 1)
  {
    hide Live, After, Rising, AllAlarms;
    var L := Front(s, z, D, n);
    LastTs(c, s.class_, L, |L|);
    assert Front(s, z, D, n + 1) == L;
    LiveTs(c, s.class_, Row(c, s, z, D, n), D[n].fix.Seen(z));
    var row := Row(c, s, z, D, n);
    LiveTs(c, s.class_, row.(stationarySince := None, dwellFired := false), D[n].fix.Seen(z));
  }

  lemma LiveTs(c: Config, class_: nat, row: State, r: Reading)
    ensures Live(c, class_, row, r).0.lastTs == Some(r.ts)
  {
    hide Stepped, InZone;
  }

  /** So what any deliveries leave, all along, is that of the fixes that move the newest time on if and
      only if no delivery puts a watermark right. */
  lemma {:induction false} ConfluenceExact(c: Config, s: Settings, z: ZoneId, D: seq<Delivery>)
    requires Stamped(D)
    ensures (forall n :: 0 <= n <= |D| ==> FrontOnly(c, s, z, D, n)) <==>
      (forall n :: 0 <= n < |D| ==> !Heals(s, z, D, n))
  {
    hide FrontOnly, Heals, Stamped;
    if forall n :: 0 <= n < |D| ==> !Heals(s, z, D, n) {
      forall n: nat | n <= |D| ensures FrontOnly(c, s, z, D, n) {
        Confluence(c, s, z, D, n);
      }
    } else {
      var n :| 0 <= n < |D| && Heals(s, z, D, n);
      if FrontOnly(c, s, z, D, n) {
        HealsBack(c, s, z, D, n);
      }
    }
  }

  /** A fix no newer than the row's watermark, or, while that lies in the future, one older than the skew allows. */
  predicate TooOld(s: Settings, row: State, r: Reading, received: int) {
    row.lastTs.Some? &&
      if row.lastTs.value - received > s.maxSkew then received - r.ts > s.maxSkew else r.ts <= row.lastTs.value
  }

  /** Such a fix does nothing to the row; any other moves the watermark to its time. */
  lemma PassedOver(c: Config, s: Settings, row: State, r: Reading, received: int)
    ensures if TooOld(s, row, r, received) then Visited(c, s, row, r, received) == (row, [])
            else Visited(c, s, row, r, received).0.lastTs == Some(r.ts)
  {
    LiveTs(c, s.class_, row, r);
    LiveTs(c, s.class_, row.(stationarySince := None, dwellFired := false), r);
    hide Live;
  }

  /** After a fix dated before the watermark no earlier fix counts toward an entry or an exit. */
  ghost predicate CountsAfresh(c: Config, row: State, r: Reading, after: State) {
    && after.consecIn <= 1 && after.consecOut <= 1
    && (!row.inside && after.inside ==> c.debounceIn <= 1 && r.inside)
    && (row.inside && !after.inside ==> c.exitDebounce <= 1 && !r.inside)
    && (!row.inside && !after.inside && r.inside ==> after.enteredAt == Some(r.ts))
  }

  lemma SteppedAfresh(c: Config, row: State, r: Reading)
    requires c.Ok() && row.lastTs.Some? && r.ts < row.lastTs.value
    ensures CountsAfresh(c, row, r, Stepped(c, row, r).0)
  {
  }

  /** No stationary spell is left, or alarmed, that began later than the fix; one that began by then goes on. */
  ghost predicate SpellsAfresh(row: State, r: Reading, after: State, alarms: seq<Alarm>) {
    && (after.stationarySince.Some? ==> after.stationarySince.value <= r.ts)
    && (forall since :: Dwell(r.ts, since) in alarms ==> since <= r.ts)
    && (row.inside && after.inside && row.stationarySince.Some? && row.stationarySince.value <= r.ts && Stands(r) ==>
          after.stationarySince == row.stationarySince)
  }

  predicate Stands(r: Reading) {
    r.speed.Some? ==> r.speed.value < STATIONARY_KPH
  }

  lemma LiveAfresh(c: Config, class_: nat, row: State, r: Reading)
    requires c.Ok() && row.lastTs.Some? && r.ts < row.lastTs.value
    requires row.stationarySince.Some? ==> row.stationarySince.value <= r.ts
    ensures var (after, alarms) := Live(c, class_, row, r);
            CountsAfresh(c, row, r, after) && SpellsAfresh(row, r, after, alarms)
  {
    SteppedAfresh(c, row, r);
    SteppedRules(c, row, r);
    var (t, _) := Stepped(c, row, r);
    RulesKeep(c, t, r);
    hide Stepped;
  }

  /** Putting a watermark right starts afresh what the bad clock began. */
  lemma HealsAfresh(c: Config, s: Settings, row: State, r: Reading, received: int)
    requires c.Ok() && row.lastTs.Some? && row.lastTs.value - received > s.maxSkew
    requires received - r.ts <= s.maxSkew && r.ts - received <= s.maxSkew
    ensures var (after, alarms) := Visited(c, s, row, r, received);
            && after.lastTs == Some(r.ts) && CountsAfresh(c, row, r, after) && SpellsAfresh(row, r, after, alarms)
  {
    PassedOver(c, s, row, r, received);
    hide Live;
    var u := if row.stationarySince.Some? && row.stationarySince.value > r.ts
      then row.(stationarySince := None, dwellFired := false) else row;
    LiveAfresh(c, s.class_, u, r);
  }

  /** Deliveries processed in the order of their stamps never put one right. */
  lemma {:induction false} NeverHeals(s: Settings, z: ZoneId, D: seq<Delivery>, n: nat)
    requires n < |D| && Stamped(D) && InStampOrder(D)
    ensures !Heals(s, z, D, n)
  {
    FrontWithinSkew(s, z, D, n, D[n].received);
  }

  /** Processed in another order they can, though no device is ahead of the clock by more than the skew:
      of two fixes, the one stamped a moment earlier comes second. */
  lemma {:induction false} OutOfOrderHeals(s: Settings, z: ZoneId, places: ZoneId -> (bool, real), t: int)
    ensures var late := Delivery(Fix(t, places, None), t, t);
            var early := Delivery(Fix(t + 1 + s.maxSkew, places, None), t + 1, t + 1);
            Stamped([early, late]) && Heals(s, z, [early, late], 1)
  {
    var late := Delivery(Fix(t, places, None), t, t);
    var early := Delivery(Fix(t + 1 + s.maxSkew, places, None), t + 1, t + 1);
    var D := [early, late];
    assert Front(s, z, D, 0) == [] && Times(s, D, 0) == {};
    assert Front(s, z, D, 1) == [early.fix.Seen(z)] && Times(s, D, 1) == {early.fix.ts};
  }

  /** Any deliveries that put no watermark right, over all zones. */
  method Run(zones: seq<(ZoneId, Config)>, s: Settings, D: seq<Delivery>)
    returns (asset: Asset, alarms: seq<(ZoneId, Alarm)>)
    requires Distinct(zones) && Stamped(D)
    requires forall i, n :: 0 <= i < |zones| && 0 <= n < |D| ==> !Heals(s, zones[i].0, D, n)
    ensures forall i :: 0 <= i < |zones| ==>
      var (z, c) := zones[i]; var L := Front(s, z, D, |D|);
      RowOf(asset.rows, z) == After(c, s.class_, L, |L|) && AlarmsOf(alarms, z) == AllAlarms(c, s.class_, L, |L|)
  {
    asset := new Asset(zones, s);
    alarms := [];
    hide Visited, After, AllAlarms, Front, Stamped, Refused, Heals;
    for n := 0 to |D|
      invariant fresh(asset) && asset.zones == zones && asset.s == s && asset.stored == Times(s, D, n)
      invariant forall i :: 0 <= i < |zones| ==> InStep(zones[i], s, D, n, asset.rows, alarms)
    {
      ghost var before, sofar := asset.rows, alarms;
      var created, more := asset.Deliver(D[n]);
      alarms := alarms + more;
      forall i | 0 <= i < |zones| ensures InStep(zones[i], s, D, n + 1, asset.rows, alarms) {
        assert InStep(zones[i], s, D, n, before, sofar);
        if created {
          assert SweptAt(zones[i], s, i < |zones|, D[n].fix, D[n].received, before, asset.rows, more);
        }
        StepIn(zones[i], s, D, n, before, sofar, asset.rows, more, created);
      }
    }
    forall i | 0 <= i < |zones|
      ensures var (z, c) := zones[i]; var L := Front(s, z, D, |D|);
              RowOf(asset.rows, z) == After(c, s.class_, L, |L|) &&
                AlarmsOf(alarms, z) == AllAlarms(c, s.class_, L, |L|)
    {
      assert InStep(zones[i], s, D, |D|, asset.rows, alarms);
      Confluence(zones[i].1, s, zones[i].0, D, |D|);
    }
  }

  ghost predicate InStep(zone: (ZoneId, Config), s: Settings, D: seq<Delivery>, n: nat, rows: map<ZoneId, State>,
                         alarms: seq<(ZoneId, Alarm)>)
    requires n <= |D|
  {
    RowOf(rows, zone.0) == Row(zone.1, s, zone.0, D, n) && AlarmsOf(alarms, zone.0) == Raised(zone.1, s, zone.0, D, n)
  }

  lemma {:induction false} StepIn(zone: (ZoneId, Config), s: Settings, D: seq<Delivery>, n: nat,
                                  before: map<ZoneId, State>,
                                  sofar: seq<(ZoneId, Alarm)>, rows: map<ZoneId, State>, more: seq<(ZoneId, Alarm)>,
                                  created: bool)
    requires n < |D| && InStep(zone, s, D, n, before, sofar)
    requires created <==> !Refused(s, D[n]) && D[n].fix.ts !in Times(s, D, n)
    requires created ==> SweptAt(zone, s, true, D[n].fix, D[n].received, before, rows, more)
    requires !created ==> rows == before && more == []
    ensures InStep(zone, s, D, n + 1, rows, sofar + more)
  {
    hide Visited, Refused, Times, RowOf;
    var (z, c) := zone;
    SplitAlarms(sofar, more, z);
    assert Row(c, s, z, D, n + 1) == Outcome(c, s, z, D, n).0;
    assert Raised(c, s, z, D, n + 1) == Raised(c, s, z, D, n) + Outcome(c, s, z, D, n).1;
  }

  lemma {:induction false} SplitAlarms(a: seq<(ZoneId, Alarm)>, b: seq<(ZoneId, Alarm)>, z: ZoneId)
    ensures AlarmsOf(a + b, z) == AlarmsOf(a, z) + AlarmsOf(b, z)
  {
    if |b| == 0 {
      assert a + b == a;
    } else {
      SplitAlarms(a, b[..|b|-1], z);
      assert (a + b)[..|a + b|-1] == a + b[..|b|-1];
    }
  }
}

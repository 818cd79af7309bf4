/** The temporal rule engine of one camera: every rule, track and zone has its own debounce, and
    the engine is nothing but all of them side by side. */
module Temporal {
  import opened Wrappers
  import opened Streaks

  datatype Object = Object(track: nat, class_: nat, confidence: real, zones: set<nat>)

  datatype Obs = Obs(ts: int, frame: nat, objects: seq<Object>)

  datatype Zone = Zone(kind: nat, maxOccupancy: Option<int>)

  datatype CameraState = Usable | Bad

  datatype Key = PresenceKey(rule: nat, track: nat, zone: nat) | OccupancyKey(rule: nat, zone: nat)
    | CameraKey(rule: nat)

  datatype Event = Event(key: Key, version: nat, firing: Firing)

  /** One input: an observation, and what was said of the camera then, if anything. */
  datatype Input = Input(obs: Obs, camera: Option<CameraState>)

  // ---- what an observation says of one key ----------------------------------------------------

  predicate ZoneOk(zones: map<nat, Zone>, r: Rule, z: nat) {
    z in zones && (r.zoneKinds == {} || zones[z].kind in r.zoneKinds)
  }

  predicate Qualifies(r: Rule, o: Object) {
    o.class_ in r.classes && o.confidence >= r.threshold
  }

  /** The last qualifying object of a track. */
  function LastObject(r: Rule, objects: seq<Object>, track: nat): (o: Option<Object>)
    ensures o.Some? ==> o.value in objects && o.value.track == track && Qualifies(r, o.value)
    ensures o.None? ==> forall x :: x in objects && x.track == track ==> !Qualifies(r, x)
  {
    if |objects| == 0 then None
    else
      var last := objects[|objects|-1];
      if last.track == track && Qualifies(r, last) then Some(last) else LastObject(r, objects[..|objects|-1], track)
  }

  /** The qualifying objects in a zone, as evidence. */
  function Members(r: Rule, objects: seq<Object>, z: nat): seq<Note> {
    if |objects| == 0 then []
    else
      var last := objects[|objects|-1];
      Members(r, objects[..|objects|-1], z) +
      (if Qualifies(r, last) && z in last.zones then [Note(Some(last.track), last.confidence)] else [])
  }

  predicate Owns(r: Rule, k: Key) {
    k.rule == r.id && match k {
      case PresenceKey(_, _, _) => r.kind == Presence
      case OccupancyKey(_, _) => r.kind == Occupancy
      case CameraKey(_) => r.kind == Camera
    }
  }

  function SignOf(zones: map<nat, Zone>, r: Rule, k: Key, i: Input): Sign {
    match k
    case PresenceKey(_, track, z) =>
      (match LastObject(r, i.obs.objects, track)
       case None => Unseen
       case Some(o) =>
         if z in o.zones && ZoneOk(zones, r, z) then Hit(i.obs.frame, [Note(Some(track), o.confidence)], 0) else Miss)
    case OccupancyKey(_, z) =>
      if !(ZoneOk(zones, r, z) && zones[z].maxOccupancy.Some? && zones[z].maxOccupancy.value >= 0) then Unseen
      else
        var members := Members(r, i.obs.objects, z);
        if |members| > zones[z].maxOccupancy.value then Hit(i.obs.frame, members, |members|) else Clear
    case CameraKey(_) =>
      match i.camera
      case None => Unseen
      case Some(state) => if state == Bad then Hit(i.obs.frame, [Note(None, 1.0)], 0) else Clear
  }

  function SeenOf(zones: map<nat, Zone>, r: Rule, k: Key, i: Input): Seen {
    Seen(i.obs.ts, SignOf(zones, r, k, i))
  }

  /** All that a run says of one key. */
  function Projection(zones: map<nat, Zone>, r: Rule, k: Key, run: seq<Input>): (S: seq<Seen>)
    ensures |S| == |run| && forall n :: 0 <= n < |run| ==> S[n] == SeenOf(zones, r, k, run[n])
  {
    if |run| == 0 then []
    else Projection(zones, r, k, run[..|run|-1]) + [SeenOf(zones, r, k, run[|run|-1])]
  }

  // ---- the state ------------------------------------------------------------------------------

  function At(state: map<Key, Streak>, last: map<Key, int>, k: Key): KeyState {
    KeyState(if k in state then Some(state[k]) else None, if k in last then Some(last[k]) else None)
  }

  function EventsOf(events: seq<Event>, k: Key): seq<Event> {
    if |events| == 0 then []
    else EventsOf(events[..|events|-1], k) + (if events[|events|-1].key == k then [events[|events|-1]] else [])
  }

  lemma {:induction false} EventsApart(a: seq<Event>, b: seq<Event>, k: Key)
    ensures EventsOf(a + b, k) == EventsOf(a, k) + EventsOf(b, k)
  {
    if |b| == 0 {
      assert a + b == a;
    } else {
      EventsApart(a, b[..|b|-1], k);
      assert (a + b)[..|a + b|-1] == a + b[..|b|-1];
      assert EventsOf(b, k) == EventsOf(b[..|b|-1], k) + (if b[|b|-1].key == k then [b[|b|-1]] else []);
    }
  }

  function Concluded(r: Rule, k: Key, f: Option<Firing>): seq<Event> {
    if f.Some? then [Event(k, r.version, f.value)] else []
  }

  /** The keys in `done` have seen input `i`, the others are as they were. */
  ghost predicate Felt(zones: map<nat, Zone>, r: Rule, i: Input, done: set<Key>, state0: map<Key, Streak>,
                       last0: map<Key, int>, state: map<Key, Streak>, last: map<Key, int>, events: seq<Event>)
  {
    forall k :: FeltAt(zones, r, i, k in done, state0, last0, state, last, events, k)
  }

  ghost predicate FeltAt(zones: map<nat, Zone>, r: Rule, i: Input, felt: bool, state0: map<Key, Streak>,
                         last0: map<Key, int>, state: map<Key, Streak>, last: map<Key, int>, events: seq<Event>, k: Key)
  {
    var before := At(state0, last0, k);
    var (after, f) := Observe(r, before, SeenOf(zones, r, k, i));
    At(state, last, k) == (if felt then after else before) &&
      EventsOf(events, k) == (if felt then Concluded(r, k, f) else [])
  }

  /** What one key's observation leaves of the state, and its events. */
  ghost predicate OneFelt(r: Rule, k: Key, o: Seen, state: map<Key, Streak>, last: map<Key, int>,
                          state': map<Key, Streak>, last': map<Key, int>, events: seq<Event>)
  {
    && state.Keys <= state'.Keys <= state.Keys + {k}
    && (var (after, f) := Observe(r, At(state, last, k), o);
        At(state', last', k) == after && events == Concluded(r, k, f))
    && forall x :: x != k ==> At(state', last', x) == At(state, last, x)
  }

  lemma {:induction false} FeltOne(zones: map<nat, Zone>, r: Rule, i: Input, done: set<Key>, state0: map<Key, Streak>,
                                   last0: map<Key, int>, state: map<Key, Streak>, last: map<Key, int>,
                                   events: seq<Event>,
                                   k: Key, state': map<Key, Streak>, last': map<Key, int>, more: seq<Event>)
    requires Felt(zones, r, i, done, state0, last0, state, last, events) && k !in done
    requires OneFelt(r, k, SeenOf(zones, r, k, i), state, last, state', last', more)
    ensures Felt(zones, r, i, done + {k}, state0, last0, state', last', events + more)
    ensures state.Keys <= state'.Keys <= state.Keys + {k}
  {
    hide Observe, SeenOf, At;
    forall x ensures FeltAt(zones, r, i, x in done + {k}, state0, last0, state', last', events + more, x) {
      assert FeltAt(zones, r, i, x in done, state0, last0, state, last, events, x);
      EventsApart(events, more, x);
    }
  }

  /** The keys in `done` are the rule's, and to its other keys the input says nothing, or only
      that one without a state does not hold. */
  ghost predicate Complete(zones: map<nat, Zone>, r: Rule, i: Input, done: set<Key>, made: set<Key>) {
    && (forall k :: k in done ==> Owns(r, k))
    && (forall k :: Owns(r, k) && k !in done ==>
          SignOf(zones, r, k, i) == Unseen || (SignOf(zones, r, k, i) == Miss && k !in made))
  }

  lemma {:induction false} FeltAll(zones: map<nat, Zone>, r: Rule, i: Input, done: set<Key>, state0: map<Key, Streak>,
                                   last0: map<Key, int>, state: map<Key, Streak>, last: map<Key, int>,
                                   events: seq<Event>)
    requires Felt(zones, r, i, done, state0, last0, state, last, events)
    requires Complete(zones, r, i, done, state0.Keys)
    ensures forall k :: FeltAt(zones, r, i, Owns(r, k), state0, last0, state, last, events, k)
  {
    hide SignOf, Advance, AddNotes, Conclude, Owns;
    forall k ensures FeltAt(zones, r, i, Owns(r, k), state0, last0, state, last, events, k) {
      assert FeltAt(zones, r, i, k in done, state0, last0, state, last, events, k);
    }
  }

  lemma NoneFelt(zones: map<nat, Zone>, r: Rule, i: Input, state: map<Key, Streak>, last: map<Key, int>)
    ensures Felt(zones, r, i, {}, state, last, state, last, [])
  {
  }

  /** The tracks a presence rule sees in a frame. */
  function InFrame(r: Rule, objects: seq<Object>): (t: set<nat>)
    ensures forall x :: x in t <==> LastObject(r, objects, x).Some?
  {
    if |objects| == 0 then {}
    else
      var last := objects[|objects|-1];
      InFrame(r, objects[..|objects|-1]) + (if Qualifies(r, last) then {last.track} else {})
  }

  function HitKeys(zones: map<nat, Zone>, r: Rule, i: Input): set<Key> {
    set t, z | t in InFrame(r, i.obs.objects) && z in LastObject(r, i.obs.objects, t).value.zones && ZoneOk(zones, r, z)
      :: PresenceKey(r.id, t, z)
  }

  /** The keys, among those with a state, whose track is seen and not in their zone. */
  function MissKeys(zones: map<nat, Zone>, r: Rule, i: Input, keys: set<Key>): set<Key> {
    set k | k in keys && k.PresenceKey? && k.rule == r.id && k.track in InFrame(r, i.obs.objects)
      && !(k.zone in LastObject(r, i.obs.objects, k.track).value.zones && ZoneOk(zones, r, k.zone))
  }

  lemma HitsAndMisses(zones: map<nat, Zone>, r: Rule, i: Input, before: set<Key>, after: set<Key>)
    requires after <= before + HitKeys(zones, r, i)
    ensures MissKeys(zones, r, i, after) !! HitKeys(zones, r, i)
  {
    hide InFrame, ZoneOk;
  }

  lemma PresenceAll(zones: map<nat, Zone>, r: Rule, i: Input, before: set<Key>, after: set<Key>)
    requires r.kind == Presence
    requires before <= after
    ensures Complete(zones, r, i, HitKeys(zones, r, i) + MissKeys(zones, r, i, after), before)
  {
    hide InFrame, ZoneOk;
    forall k | Owns(r, k) && k !in HitKeys(zones, r, i) + MissKeys(zones, r, i, after)
      ensures SignOf(zones, r, k, i) == Unseen || (SignOf(zones, r, k, i) == Miss && k !in before)
    {
      if k.track in InFrame(r, i.obs.objects) {
        assert LastObject(r, i.obs.objects, k.track).Some?;
      }
    }
  }

  /** The zones whose occupancy a rule watches. */
  function OccupancyKeys(zones: map<nat, Zone>, r: Rule): set<Key> {
    set z | z in zones.Keys && ZoneOk(zones, r, z) && zones[z].maxOccupancy.Some? && zones[z].maxOccupancy.value >= 0
      :: OccupancyKey(r.id, z)
  }

  lemma OccupancyAll(zones: map<nat, Zone>, r: Rule, i: Input, made: set<Key>)
    requires r.kind == Occupancy
    ensures Complete(zones, r, i, OccupancyKeys(zones, r), made)
  {
    hide Members;
  }

  lemma CameraAll(zones: map<nat, Zone>, r: Rule, i: Input, made: set<Key>)
    requires r.kind == Camera
    ensures Complete(zones, r, i, if i.camera.Some? then {CameraKey(r.id)} else {}, made)
  {
  }

  // ---- all the rules --------------------------------------------------------------------------

  ghost predicate Distinct(rules: seq<Rule>) {
    forall i, j :: 0 <= i < j < |rules| ==> rules[i].id != rules[j].id
  }

  /** The keys of the first `n` rules have seen input `i`, the others are as they were. */
  ghost predicate Swept(zones: map<nat, Zone>, rules: seq<Rule>, n: nat, i: Input, state0: map<Key, Streak>,
                        last0: map<Key, int>, state: map<Key, Streak>, last: map<Key, int>, events: seq<Event>)
    requires n <= |rules|
  {
    forall j, k :: 0 <= j < |rules| && Owns(rules[j], k) ==>
      FeltAt(zones, rules[j], i, j < n, state0, last0, state, last, events, k)
  }

  lemma {:induction false} SweepOne(zones: map<nat, Zone>, rules: seq<Rule>, n: nat, i: Input, state0: map<Key, Streak>,
                                    last0: map<Key, int>, state: map<Key, Streak>, last: map<Key, int>,
                                    events: seq<Event>,
                                    state': map<Key, Streak>, last': map<Key, int>, more: seq<Event>)
    requires n < |rules| && Distinct(rules) && Swept(zones, rules, n, i, state0, last0, state, last, events)
    requires forall k :: FeltAt(zones, rules[n], i, Owns(rules[n], k), state, last, state', last', more, k)
    ensures Swept(zones, rules, n + 1, i, state0, last0, state', last', events + more)
  {
    hide At, Observe, SeenOf, Owns, Distinct;
    forall j, k | 0 <= j < |rules| && Owns(rules[j], k)
      ensures FeltAt(zones, rules[j], i, j < n + 1, state0, last0, state', last', events + more, k)
    {
      assert FeltAt(zones, rules[j], i, j < n, state0, last0, state, last, events, k);
      assert FeltAt(zones, rules[n], i, Owns(rules[n], k), state, last, state', last', more, k);
      OneOwner(rules, j, n, k);
      EventsApart(events, more, k);
    }
  }

  lemma OneOwner(rules: seq<Rule>, j: nat, n: nat, k: Key)
    requires Distinct(rules) && j < |rules| && n < |rules| && Owns(rules[j], k)
    ensures Owns(rules[n], k) <==> j == n
  {
  }

  lemma NoneSwept(zones: map<nat, Zone>, rules: seq<Rule>, i: Input, state: map<Key, Streak>, last: map<Key, int>)
    ensures Swept(zones, rules, 0, i, state, last, state, last, [])
  {
    hide Observe, SeenOf, Owns;
  }

  /** The window of the rule a key belongs to. */
  function WindowOf(rules: seq<Rule>, id: nat): Option<nat> {
    if |rules| == 0 then None
    else if rules[|rules|-1].id == id then Some(rules[|rules|-1].Window())
    else WindowOf(rules[..|rules|-1], id)
  }

  lemma {:induction false} WindowIs(rules: seq<Rule>, j: nat)
    requires Distinct(rules) && j < |rules|
    ensures WindowOf(rules, rules[j].id) == Some(rules[j].Window())
  {
    if j < |rules| - 1 {
      WindowIs(rules[..|rules|-1], j);
    }
  }

  predicate Stale(rules: seq<Rule>, state: map<Key, Streak>, k: Key, now: int)
    requires k in state
  {
    var window := WindowOf(rules, k.rule);
    k.PresenceKey? && window.Some? && state[k].lastSeen.Some? && now - state[k].lastSeen.value > window.value
  }

  /** Input `i` has taken each rule's keys one turn of their own machine. */
  ghost predicate Turned(zones: map<nat, Zone>, rules: seq<Rule>, i: Input, state0: map<Key, Streak>,
                         last0: map<Key, int>, state: map<Key, Streak>, last: map<Key, int>, events: seq<Event>)
  {
    forall j, k :: 0 <= j < |rules| && Owns(rules[j], k) ==>
      TurnedAt(zones, rules[j], i, state0, last0, state, last, events, k)
  }

  ghost predicate TurnedAt(zones: map<nat, Zone>, r: Rule, i: Input, state0: map<Key, Streak>, last0: map<Key, int>,
                           state: map<Key, Streak>, last: map<Key, int>, events: seq<Event>, k: Key)
  {
    var (after, f) := Turn(r, At(state0, last0, k), SeenOf(zones, r, k, i));
    At(state, last, k) == after && EventsOf(events, k) == Concluded(r, k, f)
  }

  lemma {:induction false} ExpireAll(zones: map<nat, Zone>, rules: seq<Rule>, i: Input, state0: map<Key, Streak>,
                                     last0: map<Key, int>, state: map<Key, Streak>, last: map<Key, int>,
                                     events: seq<Event>)
    requires Distinct(rules) && Swept(zones, rules, |rules|, i, state0, last0, state, last, events)
    ensures Turned(zones, rules, i, state0, last0,
                   map k | k in state && !Stale(rules, state, k, i.obs.ts) :: state[k], last, events)
  {
    hide Observe, SignOf, Distinct;
    var state' := map k | k in state && !Stale(rules, state, k, i.obs.ts) :: state[k];
    forall j, k | 0 <= j < |rules| && Owns(rules[j], k)
      ensures TurnedAt(zones, rules[j], i, state0, last0, state', last, events, k)
    {
      assert FeltAt(zones, rules[j], i, j < |rules|, state0, last0, state, last, events, k);
      WindowIs(rules, j);
    }
  }

  lemma NoneLeft(done: set<Key>, keys: set<Key>)
    ensures done + (keys - keys) == done && done + (keys - {}) == done + keys
  {
  }

  lemma OneLess(done: set<Key>, keys: set<Key>, rest: set<Key>, k: Key)
    requires rest <= keys && k in rest && (keys - rest) + done !! rest
    ensures k !in done + (keys - rest)
    ensures done + (keys - rest) + {k} == done + (keys - (rest - {k}))
    ensures rest - {k} <= keys && (keys - (rest - {k})) + done !! rest - {k}
    ensures |rest - {k}| < |rest| && k in keys
  {
  }

  class Engine {
    const rules: seq<Rule>
    const zones: map<nat, Zone>
    var state: map<Key, Streak>
    var lastFired: map<Key, int>

    constructor (rules: seq<Rule>, zones: map<nat, Zone>)
      ensures this.rules == rules && this.zones == zones && state == map[] && lastFired == map[]
    {
      this.rules, this.zones := rules, zones;
      state, lastFired := map[], map[];
    }

    /** One observation of one key: its state made if need be, advanced, its evidence noted, and
        its event fired. */
    method Feel(r: Rule, k: Key, o: Seen) returns (events: seq<Event>)
      modifies `state, `lastFired
      ensures OneFelt(r, k, o, old(state), old(lastFired), state, lastFired, events)
    {
      hide Advance, AddNotes, Conclude;
      var (after, f) := Observe(r, At(state, lastFired, k), o);
      if after.st.Some? {
        state := state[k := after.st.value];
      }
      if after.last.Some? {
        lastFired := lastFired[k := after.last.value];
      }
      StaysMade(r, At(old(state), old(lastFired), k), o);
      events := Concluded(r, k, f);
    }

    /** Input `i` reaches each of the keys, which it had not yet. */
    method FeelEach(r: Rule, i: Input, keys: set<Key>, before: seq<Event>, ghost done: set<Key>,
                    ghost state0: map<Key, Streak>, ghost last0: map<Key, int>)
      returns (events: seq<Event>)
      requires keys !! done && Felt(zones, r, i, done, state0, last0, state, lastFired, before)
      modifies `state, `lastFired
      ensures Felt(zones, r, i, done + keys, state0, last0, state, lastFired, events)
      ensures old(state).Keys <= state.Keys <= old(state).Keys + keys
    {
      hide *;
      events := before;
      var rest := keys;
      NoneLeft(done, keys);
      while rest != {}
        invariant rest <= keys && (keys - rest) + done !! rest
        invariant old(state).Keys <= state.Keys <= old(state).Keys + keys
        invariant Felt(zones, r, i, done + (keys - rest), state0, last0, state, lastFired, events)
        decreases |rest|
      {
        var k :| k in rest;
        ghost var was, wasLast, felt := state, lastFired, done + (keys - rest);
        OneLess(done, keys, rest, k);
        var more := Feel(r, k, SeenOf(zones, r, k, i));
        FeltOne(zones, r, i, felt, state0, last0, was, wasLast, events, k, state, lastFired, more);
        events := events + more;
        rest := rest - {k};
      }
      NoneLeft(done, keys);
    }

    /** A presence rule: hits for the tracks seen in a qualifying zone, then misses for those seen
        outside a zone they were tracked in. */
    method Presences(r: Rule, i: Input) returns (events: seq<Event>)
      requires r.kind == Presence
      modifies `state, `lastFired
      ensures forall k :: FeltAt(zones, r, i, Owns(r, k), old(state), old(lastFired), state, lastFired, events, k)
    {
      ghost var state0, last0 := state, lastFired;
      NoneFelt(zones, r, i, state, lastFired);
      hide *;
      var hits := HitKeys(zones, r, i);
      events := FeelEach(r, i, hits, [], {}, state0, last0);
      var misses := MissKeys(zones, r, i, state.Keys);
      HitsAndMisses(zones, r, i, state0.Keys, state.Keys);
      PresenceAll(zones, r, i, state0.Keys, state.Keys);
      events := FeelEach(r, i, misses, events, {} + hits, state0, last0);
      assert {} + hits + misses == hits + misses;
      FeltAll(zones, r, i, hits + misses, state0, last0, state, lastFired, events);
    }

    method Occupancies(r: Rule, i: Input) returns (events: seq<Event>)
      requires r.kind == Occupancy
      modifies `state, `lastFired
      ensures forall k :: FeltAt(zones, r, i, Owns(r, k), old(state), old(lastFired), state, lastFired, events, k)
    {
      ghost var state0, last0 := state, lastFired;
      NoneFelt(zones, r, i, state, lastFired);
      OccupancyAll(zones, r, i, state.Keys);
      hide *;
      var keys := OccupancyKeys(zones, r);
      assert {} + keys == keys;
      events := FeelEach(r, i, keys, [], {}, state0, last0);
      FeltAll(zones, r, i, keys, state0, last0, state, lastFired, events);
    }

    method CameraRule(r: Rule, i: Input) returns (events: seq<Event>)
      requires r.kind == Camera
      modifies `state, `lastFired
      ensures forall k :: FeltAt(zones, r, i, Owns(r, k), old(state), old(lastFired), state, lastFired, events, k)
    {
      ghost var state0, last0 := state, lastFired;
      NoneFelt(zones, r, i, state, lastFired);
      CameraAll(zones, r, i, state.Keys);
      hide *;
      var keys := if i.camera.Some? then {CameraKey(r.id)} else {};
      assert {} + keys == keys;
      events := FeelEach(r, i, keys, [], {}, state0, last0);
      FeltAll(zones, r, i, keys, state0, last0, state, lastFired, events);
    }

    /** Advances every rule by one observation, then forgets subjects long unseen. */
    method Step(i: Input) returns (events: seq<Event>)
      requires Distinct(rules)
      modifies `state, `lastFired
      ensures Turned(zones, rules, i, old(state), old(lastFired), state, lastFired, events)
    {
      ghost var state0, last0 := state, lastFired;
      events := [];
      NoneSwept(zones, rules, i, state, lastFired);
      hide *;
      for n := 0 to |rules|
        invariant Swept(zones, rules, n, i, state0, last0, state, lastFired, events)
      {
        var r := rules[n];
        ghost var was, wasLast := state, lastFired;
        var more;
        match r.kind {
          case Presence => more := Presences(r, i);
          case Occupancy => more := Occupancies(r, i);
          case Camera => more := CameraRule(r, i);
        }
        SweepOne(zones, rules, n, i, state0, last0, was, wasLast, events, state, lastFired, more);
        events := events + more;
      }
      ExpireAll(zones, rules, i, state0, last0, state, lastFired, events);
      state := map k | k in state && !Stale(rules, state, k, i.obs.ts) :: state[k];
    }
  }

  /** Observing never forgets. */
  lemma StaysMade(r: Rule, ks: KeyState, o: Seen)
    ensures var after := Observe(r, ks, o).0; (ks.st.Some? ==> after.st.Some?) && (ks.last.Some? ==> after.last.Some?)
  {
  }

  // ---- whole runs -----------------------------------------------------------------------------

  function Named(r: Rule, k: Key, fired: seq<Firing>): (e: seq<Event>)
    ensures |e| == |fired| && forall n :: 0 <= n < |e| ==> e[n] == Event(k, r.version, fired[n])
  {
    if |fired| == 0 then [] else Named(r, k, fired[..|fired|-1]) + [Event(k, r.version, fired[|fired|-1])]
  }

  /** After `n` inputs every key is where its own machine is, and its events are that machine's. */
  ghost predicate Apart(zones: map<nat, Zone>, rules: seq<Rule>, run: seq<Input>, n: nat, state: map<Key, Streak>,
                        last: map<Key, int>, events: seq<Event>)
    requires n <= |run|
  {
    forall j, k :: 0 <= j < |rules| && Owns(rules[j], k) ==> ApartAt(zones, rules[j], run, n, state, last, events, k)
  }

  ghost predicate ApartAt(zones: map<nat, Zone>, r: Rule, run: seq<Input>, n: nat, state: map<Key, Streak>,
                          last: map<Key, int>, events: seq<Event>, k: Key)
    requires n <= |run|
  {
    var S := Projection(zones, r, k, run);
    At(state, last, k) == After(r, S, n) && EventsOf(events, k) == Named(r, k, Fired(r, S, n))
  }

  lemma {:induction false} ApartStep(zones: map<nat, Zone>, rules: seq<Rule>, run: seq<Input>, n: nat,
                                     state: map<Key, Streak>,
                                     last: map<Key, int>, events: seq<Event>, state': map<Key, Streak>,
                                     last': map<Key, int>, more: seq<Event>)
    requires n < |run| && Apart(zones, rules, run, n, state, last, events)
    requires Turned(zones, rules, run[n], state, last, state', last', more)
    ensures Apart(zones, rules, run, n + 1, state', last', events + more)
  {
    hide At, Turn, SignOf, Owns, Projection;
    forall j, k | 0 <= j < |rules| && Owns(rules[j], k)
      ensures ApartAt(zones, rules[j], run, n + 1, state', last', events + more, k)
    {
      assert ApartAt(zones, rules[j], run, n, state, last, events, k);
      assert TurnedAt(zones, rules[j], run[n], state, last, state', last', more, k);
      EventsApart(events, more, k);
      NamedStep(rules[j], k, Projection(zones, rules[j], k, run), n);
    }
  }

  lemma NamedStep(r: Rule, k: Key, S: seq<Seen>, n: nat)
    requires n < |S|
    ensures Named(r, k, Fired(r, S, n + 1)) == Named(r, k, Fired(r, S, n)) + Concluded(r, k, FiresAt(r, S, n))
  {
    hide FiresAt;
    var f := FiresAt(r, S, n);
    if f.Some? {
      assert Fired(r, S, n + 1)[..|Fired(r, S, n)|] == Fired(r, S, n);
    }
  }

  lemma NothingApart(zones: map<nat, Zone>, rules: seq<Rule>, run: seq<Input>)
    ensures Apart(zones, rules, run, 0, map[], map[], [])
  {
    hide Owns, Projection;
  }

  /** The engine over a whole run is the product of the machines of its keys: the events of each
      key are those its own machine fires on what the run says of that key alone. */
  method Feed(rules: seq<Rule>, zones: map<nat, Zone>, run: seq<Input>) returns (events: seq<Event>)
    requires Distinct(rules)
    ensures forall j, k :: 0 <= j < |rules| && Owns(rules[j], k) ==>
      EventsOf(events, k) == Named(rules[j], k, Fired(rules[j], Projection(zones, rules[j], k, run), |run|))
  {
    var engine := new Engine(rules, zones);
    events := [];
    NothingApart(zones, rules, run);
    hide Turned, Owns, Projection, Apart, At;
    for n := 0 to |run|
      invariant fresh(engine) && engine.rules == rules && engine.zones == zones
      invariant Apart(zones, rules, run, n, engine.state, engine.lastFired, events)
    {
      ghost var was, wasLast := engine.state, engine.lastFired;
      var more := engine.Step(run[n]);
      ApartStep(zones, rules, run, n, was, wasLast, events, engine.state, engine.lastFired, more);
      events := events + more;
    }
    ApartEvents(zones, rules, run, engine.state, engine.lastFired, events);
  }

  lemma ApartEvents(zones: map<nat, Zone>, rules: seq<Rule>, run: seq<Input>, state: map<Key, Streak>,
                    last: map<Key, int>, events: seq<Event>)
    requires Apart(zones, rules, run, |run|, state, last, events)
    ensures forall j, k :: 0 <= j < |rules| && Owns(rules[j], k) ==>
      EventsOf(events, k) == Named(rules[j], k, Fired(rules[j], Projection(zones, rules[j], k, run), |run|))
  {
    hide Owns, Projection, Named, At, Fired, After;
    forall j, k | 0 <= j < |rules| && Owns(rules[j], k)
      ensures EventsOf(events, k) == Named(rules[j], k, Fired(rules[j], Projection(zones, rules[j], k, run), |run|))
    {
      assert ApartAt(zones, rules[j], run, |run|, state, last, events, k);
    }
  }

  // ---- replay ---------------------------------------------------------------------------------

  /** Observations are replayed by time and, at one time, by frame. */
  predicate Less(a: Obs, b: Obs) {
    a.ts < b.ts || (a.ts == b.ts && a.frame < b.frame)
  }

  ghost predicate Ordered(list: seq<Obs>) {
    forall i, j :: 0 <= i < j < |list| ==> !Less(list[j], list[i])
  }

  /** `o` joins an ordered list, after those it ties with. */
  function Placed(list: seq<Obs>, o: Obs): (r: seq<Obs>)
    ensures multiset(r) == multiset(list) + multiset{o}
  {
    if |list| == 0 then [o]
    else
      var init, last := list[..|list|-1], list[|list|-1];
      assert list == init + [last];
      if Less(o, last) then Placed(init, o) + [last] else list + [o]
  }

  function Arranged(list: seq<Obs>): (r: seq<Obs>)
    ensures multiset(r) == multiset(list)
  {
    if |list| == 0 then []
    else
      assert list == list[..|list|-1] + [list[|list|-1]];
      Placed(Arranged(list[..|list|-1]), list[|list|-1])
  }

  lemma {:induction false} PlacedOrdered(list: seq<Obs>, o: Obs)
    requires Ordered(list)
    ensures Ordered(Placed(list, o))
  {
    if |list| > 0 && Less(o, list[|list|-1]) {
      var init, last := list[..|list|-1], list[|list|-1];
      PlacedOrdered(init, o);
      forall x | x in Placed(init, o) ensures !Less(last, x) {
        assert x in multiset(Placed(init, o));
        assert x in init || x == o;
      }
    }
  }

  lemma {:induction false} ArrangedOrdered(list: seq<Obs>)
    ensures Ordered(Arranged(list))
  {
    if |list| > 0 {
      ArrangedOrdered(list[..|list|-1]);
      PlacedOrdered(Arranged(list[..|list|-1]), list[|list|-1]);
    }
  }

  /** No two of the observations tie. */
  ghost predicate NoTies(list: seq<Obs>) {
    forall a, b :: a in list && b in list && a != b ==> Less(a, b) || Less(b, a)
  }

  lemma InMultiset(a: seq<Obs>, b: seq<Obs>, x: Obs)
    requires multiset(a) == multiset(b) && x in a
    ensures x in b
  {
    assert x in multiset(a);
  }

  lemma SameSize(a: seq<Obs>, b: seq<Obs>)
    requires multiset(a) == multiset(b)
    ensures |a| == |b|
  {
    assert |multiset(a)| == |a| && |multiset(b)| == |b|;
  }

  /** Ordered, they end alike. */
  lemma {:induction false} LastSame(a: seq<Obs>, b: seq<Obs>)
    requires Ordered(a) && Ordered(b) && NoTies(a) && multiset(a) == multiset(b) && 0 < |a| && 0 < |b|
    ensures a[|a|-1] == b[|b|-1]
  {
    var x, y := a[|a|-1], b[|b|-1];
    InMultiset(a, b, x);
    InMultiset(b, a, y);
    var i :| 0 <= i < |a| && a[i] == y;
    var j :| 0 <= j < |b| && b[j] == x;
    assert !Less(x, y) && !Less(y, x);
  }

  lemma {:induction false} OrderedUnique(a: seq<Obs>, b: seq<Obs>)
    requires Ordered(a) && Ordered(b) && NoTies(a) && multiset(a) == multiset(b)
    ensures a == b
  {
    hide *;
    SameSize(a, b);
    if |a| > 0 {
      LastSame(a, b);
      InitSame(a, b);
      OrderedInit(a);
      OrderedInit(b);
      OrderedUnique(a[..|a|-1], b[..|b|-1]);
    }
  }

  /** What is left of them without it is alike too. */
  lemma InitSame(a: seq<Obs>, b: seq<Obs>)
    requires multiset(a) == multiset(b) && 0 < |a| && 0 < |b| && a[|a|-1] == b[|b|-1]
    ensures multiset(a[..|a|-1]) == multiset(b[..|b|-1])
    ensures a == a[..|a|-1] + [a[|a|-1]] && b == b[..|b|-1] + [b[|b|-1]]
  {
    var s, t, x := a[..|a|-1], b[..|b|-1], a[|a|-1];
    assert a == s + [x] && b == t + [x];
    assert multiset(s) == multiset(a) - multiset{x};
    assert multiset(t) == multiset(b) - multiset{x};
  }

  lemma OrderedInit(a: seq<Obs>)
    requires Ordered(a) && 0 < |a|
    ensures Ordered(a[..|a|-1]) && (NoTies(a) ==> NoTies(a[..|a|-1]))
  {
  }

  /** The order in which observations are given does not matter to a replay, when no two tie. */
  lemma {:induction false} AnyOrder(a: seq<Obs>, b: seq<Obs>)
    requires multiset(a) == multiset(b) && NoTies(a)
    ensures Arranged(a) == Arranged(b)
  {
    ArrangedOrdered(a);
    ArrangedOrdered(b);
    forall x | x in Arranged(a) ensures x in a {
      assert x in multiset(Arranged(a));
    }
    OrderedUnique(Arranged(a), Arranged(b));
  }

  /** What a replay feeds the engine: no camera is assessed then. */
  function Inputs(list: seq<Obs>): (run: seq<Input>)
    ensures |run| == |list| && forall n :: 0 <= n < |list| ==> run[n] == Input(list[n], None)
  {
    if |list| == 0 then [] else Inputs(list[..|list|-1]) + [Input(list[|list|-1], None)]
  }

  /** Recomputes the events of stored observations: those of each key are what its own machine fires on
      what the observations, in order, say of that key alone. */
  method Replay(rules: seq<Rule>, zones: map<nat, Zone>, observations: seq<Obs>) returns (events: seq<Event>)
    requires Distinct(rules)
    ensures var run := Inputs(Arranged(observations));
            forall j, k :: 0 <= j < |rules| && Owns(rules[j], k) ==>
              EventsOf(events, k) == Named(rules[j], k, Fired(rules[j], Projection(zones, rules[j], k, run), |run|))
  {
    if |observations| == 0 {
      events := [];
      NothingReplayed(rules, zones);
      return;
    }
    var run := Inputs(Arranged(observations));
    hide *;
    events := Feed(rules, zones, run);
  }

  lemma NothingReplayed(rules: seq<Rule>, zones: map<nat, Zone>)
    ensures Inputs(Arranged([])) == []
    ensures forall j, k :: 0 <= j < |rules| && Owns(rules[j], k) ==>
      EventsOf([], k) == Named(rules[j], k, Fired(rules[j], Projection(zones, rules[j], k, []), 0))
  {
  }

  // ---- event ids ------------------------------------------------------------------------------

  /** What tells events of one camera apart in their ids: the rule, the subject and the time the
      streak opened.  The id of a presence event names its track, not its zone. */
  datatype Subject = OfTrack(track: nat) | OfZone(zone: nat) | OfView

  datatype EventId = EventId(rule: nat, version: nat, subject: Subject, since: int)

  function IdOf(e: Event): EventId {
    EventId(e.key.rule, e.version,
            match e.key
            case PresenceKey(_, track, _) => OfTrack(track)
            case OccupancyKey(_, z) => OfZone(z)
            case CameraKey(_) => OfView,
            e.firing.since)
  }

  predicate InZone(zones: map<nat, Zone>, r: Rule, i: Input, track: nat, z: nat) {
    var o := LastObject(r, i.obs.objects, track);
    o.Some? && z in o.value.zones && ZoneOk(zones, r, z)
  }

  ghost predicate RisingRun(run: seq<Input>) {
    forall i, j :: 0 <= i < j < |run| ==> run[i].obs.ts < run[j].obs.ts
  }

  /** The id of the event that observation `m` fires for a key. */
  function IdAt(zones: map<nat, Zone>, r: Rule, k: Key, run: seq<Input>, m: nat): EventId
    requires m < |run| && FiresAt(r, Projection(zones, r, k, run), m).Some?
  {
    IdOf(Event(k, r.version, FiresAt(r, Projection(zones, r, k, run), m).value))
  }

  /** The observation that opened the streak in progress at `m`. */
  function OpenedAt(zones: map<nat, Zone>, r: Rule, k: Key, run: seq<Input>, m: nat): int
    requires m < |run|
  {
    Origin(r, Projection(zones, r, k, run), m + 1)
  }

  /** Keys the ids do not tell apart: one key, or one track in two zones. */
  predicate Alike(k: Key, l: Key) {
    k == l || (k.PresenceKey? && l.PresenceKey? && k.track == l.track)
  }

  /** An event names the observation that opened its streak, which saw its subject. */
  lemma {:induction false} NamesOpening(zones: map<nat, Zone>, r: Rule, k: Key, run: seq<Input>, m: nat)
    requires r.Ok() && m < |run| && FiresAt(r, Projection(zones, r, k, run), m).Some?
    ensures var a := OpenedAt(zones, r, k, run, m);
            && 0 <= a <= m && IdAt(zones, r, k, run, m).since == run[a].obs.ts
            && SignOf(zones, r, k, run[a]).Hit?
  {
    hide FiresAt, Due, SignOf;
    FiresExactly(r, Projection(zones, r, k, run), m);
  }

  /** Two events of a rule share an id if and only if they are of one subject and their streaks opened
      at one observation. */
  lemma {:induction false} IdsShared(zones: map<nat, Zone>, r: Rule, run: seq<Input>, k: Key, l: Key, m: nat, n: nat)
    requires r.Ok() && Owns(r, k) && Owns(r, l) && RisingRun(run) && m < |run| && n < |run|
    requires FiresAt(r, Projection(zones, r, k, run), m).Some? && FiresAt(r, Projection(zones, r, l, run), n).Some?
    ensures IdAt(zones, r, k, run, m) == IdAt(zones, r, l, run, n)
       <==> Alike(k, l) && OpenedAt(zones, r, k, run, m) == OpenedAt(zones, r, l, run, n)
  {
    NamesOpening(zones, r, k, run, m);
    NamesOpening(zones, r, l, run, n);
    hide FiresAt, SignOf, Projection, Origin;
  }

  /** Of one key, then, no two do; of a track in two zones, they do only when both were entered, or
      found entered, at one observation. */
  lemma {:induction false} SharedBySame(zones: map<nat, Zone>, r: Rule, run: seq<Input>, k: Key, l: Key, m: nat, n: nat)
    requires r.Ok() && Owns(r, k) && Owns(r, l) && RisingRun(run) && m < |run| && n < |run|
    requires FiresAt(r, Projection(zones, r, k, run), m).Some? && FiresAt(r, Projection(zones, r, l, run), n).Some?
    requires IdAt(zones, r, k, run, m) == IdAt(zones, r, l, run, n)
    ensures k == l ==> m == n
    ensures k != l ==>
      && k.PresenceKey? && l.PresenceKey? && k.track == l.track && k.zone != l.zone
      && var i := run[OpenedAt(zones, r, k, run, m)];
           InZone(zones, r, i, k.track, k.zone) && InZone(zones, r, i, k.track, l.zone)
  {
    IdsShared(zones, r, run, k, l, m, n);
    NamesOpening(zones, r, k, run, m);
    NamesOpening(zones, r, l, run, n);
    hide FiresAt, Projection, Origin, LastObject, ZoneOk, Members;
    if k == l {
      RunRises(zones, r, k, run);
      SameStreak(r, Projection(zones, r, k, run), m, n);
    }
  }

  lemma RunRises(zones: map<nat, Zone>, r: Rule, k: Key, run: seq<Input>)
    requires RisingRun(run)
    ensures Streaks.Rising(Projection(zones, r, k, run))
  {
    hide Projection, SignOf;
  }

  lemma {:induction false} SameStreak(r: Rule, S: seq<Seen>, m: nat, n: nat)
    requires r.Ok() && Streaks.Rising(S) && m < |S| && n < |S| && FiresAt(r, S, m).Some? && FiresAt(r, S, n).Some?
    requires FiresAt(r, S, m).value.since == FiresAt(r, S, n).value.since
    ensures m == n
  {
    hide FiresAt;
    if m < n {
      OncePerStreak(r, S, m, n);
    } else if n < m {
      OncePerStreak(r, S, n, m);
    }
  }

  /** No track has streaks in two qualifying zones that opened at one observation and both come to be
      due, with the cooldown over. */
  ghost predicate NoTwins(zones: map<nat, Zone>, r: Rule, run: seq<Input>) {
    forall k, l, m, n ::
      Owns(r, k) && Owns(r, l) && k != l && Alike(k, l) && 0 <= m < |run| && 0 <= n < |run|
      && Ripe(r, Projection(zones, r, k, run), m) && Ripe(r, Projection(zones, r, l, run), n)
      ==> OpenedAt(zones, r, k, run, m) != OpenedAt(zones, r, l, run, n)
  }

  /** Every event of the rule has an id of its own. */
  ghost predicate IdsUnique(zones: map<nat, Zone>, r: Rule, run: seq<Input>) {
    forall k, l, m, n ::
      Owns(r, k) && Owns(r, l) && 0 <= m < |run| && 0 <= n < |run|
      && FiresAt(r, Projection(zones, r, k, run), m).Some? && FiresAt(r, Projection(zones, r, l, run), n).Some?
      && IdAt(zones, r, k, run, m) == IdAt(zones, r, l, run, n)
      ==> k == l && m == n
  }

  /** The events of a run have ids of their own if and only if it has no twins. */
  lemma {:induction false} IdsDiffer(zones: map<nat, Zone>, r: Rule, run: seq<Input>)
    requires r.Ok() && RisingRun(run)
    ensures IdsUnique(zones, r, run) <==> NoTwins(zones, r, run)
  {
    hide FiresAt, Projection, Origin, Owns, IdAt, OpenedAt, Alike, Ripe;
    forall k, m: nat | m < |run|
      ensures Ripe(r, Projection(zones, r, k, run), m) <==> FiresAt(r, Projection(zones, r, k, run), m).Some?
    {
      RipeFires(r, Projection(zones, r, k, run), m);
    }
    forall k, l, m, n | Owns(r, k) && Owns(r, l) && 0 <= m < |run| && 0 <= n < |run|
                        && FiresAt(r, Projection(zones, r, k, run), m).Some?
                        && FiresAt(r, Projection(zones, r, l, run), n).Some?
      ensures IdAt(zones, r, k, run, m) == IdAt(zones, r, l, run, n)
         <==> Alike(k, l) && OpenedAt(zones, r, k, run, m) == OpenedAt(zones, r, l, run, n)
      ensures IdAt(zones, r, k, run, m) == IdAt(zones, r, l, run, n) && k == l ==> m == n
    {
      IdsShared(zones, r, run, k, l, m, n);
      if IdAt(zones, r, k, run, m) == IdAt(zones, r, l, run, n) {
        SharedBySame(zones, r, run, k, l, m, n);
      }
    }
    AlikeSelf();
  }

  /** Every event of every rule has an id of its own. */
  ghost predicate AllUnique(zones: map<nat, Zone>, rules: seq<Rule>, run: seq<Input>) {
    forall i, j, k, l, m, n ::
      0 <= i < |rules| && 0 <= j < |rules| && Owns(rules[i], k) && Owns(rules[j], l) && 0 <= m < |run| && 0 <= n < |run|
      && FiresAt(rules[i], Projection(zones, rules[i], k, run), m).Some?
      && FiresAt(rules[j], Projection(zones, rules[j], l, run), n).Some?
      && IdAt(zones, rules[i], k, run, m) == IdAt(zones, rules[j], l, run, n)
      ==> k == l && m == n
  }

  /** Ids name the rule, so all the events of a run have ids of their own if and only if no rule has
      twins in it. */
  lemma {:induction false} AllIdsDiffer(zones: map<nat, Zone>, rules: seq<Rule>, run: seq<Input>)
    requires Distinct(rules) && (forall i :: 0 <= i < |rules| ==> rules[i].Ok()) && RisingRun(run)
    ensures AllUnique(zones, rules, run) <==> forall i :: 0 <= i < |rules| ==> NoTwins(zones, rules[i], run)
  {
    hide FiresAt, Projection, Origin, OpenedAt, Alike, NoTwins;
    forall i | 0 <= i < |rules| ensures IdsUnique(zones, rules[i], run) <==> NoTwins(zones, rules[i], run) {
      IdsDiffer(zones, rules[i], run);
    }
    if forall i :: 0 <= i < |rules| ==> IdsUnique(zones, rules[i], run) {
      forall i, j, k, l, m, n |
        0 <= i < |rules| && 0 <= j < |rules| && Owns(rules[i], k) && Owns(rules[j], l) && 0 <= m < |run| &&
          0 <= n < |run|
        && FiresAt(rules[i], Projection(zones, rules[i], k, run), m).Some?
        && FiresAt(rules[j], Projection(zones, rules[j], l, run), n).Some?
        && IdAt(zones, rules[i], k, run, m) == IdAt(zones, rules[j], l, run, n)
        ensures k == l && m == n
      {
        assert k.rule == l.rule;
        assert i == j;
        assert IdsUnique(zones, rules[i], run);
      }
    }
    if AllUnique(zones, rules, run) {
      forall i | 0 <= i < |rules| ensures IdsUnique(zones, rules[i], run) {
      }
    }
  }

  lemma AlikeSelf()
    ensures forall k :: Alike(k, k)
  {
  }

  /** No track is ever seen in two zones that qualify for a rule. */
  ghost predicate OneZone(zones: map<nat, Zone>, r: Rule, run: seq<Input>) {
    forall n, track, z, y ::
      0 <= n < |run| && InZone(zones, r, run[n], track, z) && InZone(zones, r, run[n], track, y) ==> z == y
  }

  /** It has none when no track is ever seen in two. */
  lemma {:induction false} OneZoneEnough(zones: map<nat, Zone>, r: Rule, run: seq<Input>)
    requires r.Ok() && RisingRun(run) && OneZone(zones, r, run)
    ensures NoTwins(zones, r, run)
  {
    hide FiresAt, Projection, Origin, InZone, Ripe;
    forall k, l, m, n | Owns(r, k) && Owns(r, l) && k != l && Alike(k, l) && 0 <= m < |run| && 0 <= n < |run|
                        && Ripe(r, Projection(zones, r, k, run), m)
                        && Ripe(r, Projection(zones, r, l, run), n)
      ensures OpenedAt(zones, r, k, run, m) != OpenedAt(zones, r, l, run, n)
    {
      RipeFires(r, Projection(zones, r, k, run), m);
      RipeFires(r, Projection(zones, r, l, run), n);
      if OpenedAt(zones, r, k, run, m) == OpenedAt(zones, r, l, run, n) {
        NamesOpening(zones, r, k, run, m);
        IdsShared(zones, r, run, k, l, m, n);
        SharedBySame(zones, r, run, k, l, m, n);
        assert false;
      }
    }
  }

  // ---- twins ----------------------------------------------------------------------------------

  /** An object that stays where it is, seen once every `step`. */
  function Staying(o: Object, step: int, n: nat): seq<Input> {
    if n == 0 then [] else Staying(o, step, n - 1) + [Input(Obs(step * n, n, [o]), None)]
  }

  lemma {:induction false} StayingAt(o: Object, step: int, n: nat)
    ensures |Staying(o, step, n)| == n
    ensures forall m :: 0 <= m < n ==> Staying(o, step, n)[m] == Input(Obs(step * (m + 1), m + 1, [o]), None)
  {
    if n > 0 {
      StayingAt(o, step, n - 1);
    }
  }

  /** It rises, and shows the object to be in any zone it is in all along. */
  lemma {:induction false} StayingSeen(zones: map<nat, Zone>, r: Rule, o: Object, step: int, n: nat, z: nat)
    requires r.kind == Presence && step > 0 && Qualifies(r, o) && z in o.zones && ZoneOk(zones, r, z)
    ensures var run := Staying(o, step, n); var S := Projection(zones, r, PresenceKey(r.id, o.track, z), run);
            && RisingRun(run) && |S| == n
            && forall m :: 0 <= m < n ==>
                 S[m] == Seen(step * (m + 1), Hit(m + 1, [Note(Some(o.track), o.confidence)], 0))
  {
    StayingAt(o, step, n);
    var run := Staying(o, step, n);
    forall i, j | 0 <= i < j < n ensures run[i].obs.ts < run[j].obs.ts {
      Further(step, i + 1, j + 1);
    }
    hide Qualifies, ZoneOk, Staying;
    assert LastObject(r, [o], o.track) == Some(o);
  }

  lemma Further(step: int, i: int, j: int)
    requires step > 0 && i < j
    ensures step * i < step * j
  {
  }

  /** Whatever a presence rule asks for, an object long enough in two zones that qualify has an event
      in each, and the two have one id. */
  lemma {:induction false} TwoZonesClash(zones: map<nat, Zone>, r: Rule, o: Object, y: nat, z: nat)
    requires r.Ok() && r.kind == Presence && Qualifies(r, o) && y != z
    requires y in o.zones && ZoneOk(zones, r, y) && z in o.zones && ZoneOk(zones, r, z)
    ensures var run := Staying(o, MS * r.minDwellMs + 1, r.minObservations + 1);
            RisingRun(run) && !IdsUnique(zones, r, run)
  {
    var run := Staying(o, MS * r.minDwellMs + 1, r.minObservations + 1);
    hide *;
    var m := StayingFires(zones, r, o, y, z);
    ClashAt(zones, r, run, o.track, y, z, m);
  }

  /** It has an event in each zone at the same observation, of streaks opened at the same one. */
  lemma {:induction false} StayingFires(zones: map<nat, Zone>, r: Rule, o: Object, y: nat, z: nat) returns (m: nat)
    requires r.Ok() && r.kind == Presence && Qualifies(r, o)
    requires y in o.zones && ZoneOk(zones, r, y) && z in o.zones && ZoneOk(zones, r, z)
    ensures var run := Staying(o, MS * r.minDwellMs + 1, r.minObservations + 1);
            && RisingRun(run) && m < |run|
            && Projection(zones, r, PresenceKey(r.id, o.track, y), run) ==
                 Projection(zones, r, PresenceKey(r.id, o.track, z), run)
            && FiresAt(r, Projection(zones, r, PresenceKey(r.id, o.track, y), run), m).Some?
  {
    var step, n := MS * r.minDwellMs + 1, r.minObservations + 1;
    var run := Staying(o, step, n);
    var S := Projection(zones, r, PresenceKey(r.id, o.track, y), run);
    var T := Projection(zones, r, PresenceKey(r.id, o.track, z), run);
    assert n >= 2 && step > 0;
    StepsApart(step, n);
    StayingAt(o, step, n);
    StayingSeen(zones, r, o, step, n, y);
    StayingSeen(zones, r, o, step, n, z);
    hide *;
    assert S == T;
    m := HitsFire(r, S);
  }

  lemma StepsApart(step: int, n: nat)
    requires step > 0 && n >= 2
    ensures step * n - step * 1 >= step
  {
  }

  lemma ClashAt(zones: map<nat, Zone>, r: Rule, run: seq<Input>, track: nat, y: nat, z: nat, m: nat)
    requires r.Ok() && r.kind == Presence && RisingRun(run) && m < |run| && y != z
    requires var k, l := PresenceKey(r.id, track, y), PresenceKey(r.id, track, z);
             Projection(zones, r, k, run) == Projection(zones, r, l, run) &&
               FiresAt(r, Projection(zones, r, k, run), m).Some?
    ensures !IdsUnique(zones, r, run)
  {
    var k, l := PresenceKey(r.id, track, y), PresenceKey(r.id, track, z);
    IdsShared(zones, r, run, k, l, m, m);
    hide FiresAt, Projection, IdAt;
  }
}

/** Store and forward: a device's spool, an MQTT broker, the ingestor and its database, as the steps
    each can take, with a crash possible between any two.

    The broker keeps the QoS 1 contract (section 4.3.2 of MQTT 3.1.1): it acknowledges a message
    only once it holds it for the subscriber's session, and holds it until the subscriber
    acknowledges it; it may deliver it more than once.  Then every payload ever spooled is, at
    every moment, somewhere: and no fix is stored twice. */
module Forwarding {
  type Raw = nat  // the payload text

  datatype FixKey = FixKey(site: nat, asset: nat, ts: int)

  /** What can be said of a payload: whether the publisher still finds it valid; its key; and whether
      the ingestor refuses it whenever it comes: malformed, from another asset's topic, of a device
      not registered, or impossible to store.  A fix dated ahead of the server's clock by more than
      the skew it refuses too, at that time. */
  datatype World = World(valid: Raw -> bool, key: Raw -> FixKey, faulty: Raw -> bool, skew: nat)

  datatype Entry = Entry(id: nat, raw: Raw)

  datatype Row = Row(key: FixKey, raw: Raw)

  /** Where the drain loop is.  All of it is lost in a crash. */
  datatype Publisher =
    | Idle
    | Draining(entries: seq<Entry>, i: nat, done: seq<nat>)
    | Copied(entries: seq<Entry>, i: nat, done: seq<nat>)                // quarantined, not yet removed
    | Waiting(entries: seq<Entry>, i: nat, done: seq<nat>, acked: bool)  // published
    | Deleting(done: seq<nat>, j: nat)

  /** Where the ingestor is with a message.  All of it is lost in a crash. */
  datatype Ingestor = Ready | Handling(raw: Raw) | Final(raw: Raw)

  /** `appended`, `sent`, `taken` and `rejected` are history: all payloads spooled, published,
      accepted by the broker, and refused for good; and `seen` says when each was first spooled. */
  datatype State = State(now: int, next: nat, spool: map<nat, Raw>, quarantine: map<nat, Raw>, publisher: Publisher,
                         held: multiset<Raw>, ingestor: Ingestor, rows: seq<Row>,
                         appended: map<nat, Raw>, sent: set<Raw>, taken: set<Raw>, rejected: set<Raw>,
                         seen: map<Raw, int>)

  datatype Step =
    | Wait(to: int)  // time passes
    | Append(raw: Raw)
    | Peek(batch: seq<Entry>)
    | CopyToQuarantine
    | RemoveQuarantined
    | Publish
    | BrokerTakes(raw: Raw)
    | PubAck
    | Published
    | GiveUp
    | EndOfBatch
    | DeleteOne
    | Finish
    | PublisherCrash
    | Deliver(raw: Raw)
    | Store
    | Reject
    | Ack
    | IngestorCrash  // or a stop before the outcome is final, or an ack that is lost

  ghost predicate Init(s: State) {
    && s.spool == map[] && s.quarantine == map[] && s.publisher == Idle && s.held == multiset{} && s.ingestor == Ready
    && s.rows == [] && s.appended == map[] && s.sent == {} && s.taken == {} && s.rejected == {}
    && s.seen == map[]
  }

  predicate KeyStored(rows: seq<Row>, k: FixKey) {
    exists r :: r in rows && r.key == k
  }

  /** An insert that does nothing when the key is there. */
  function Inserted(w: World, rows: seq<Row>, raw: Raw): seq<Row> {
    if KeyStored(rows, w.key(raw)) then rows else rows + [Row(w.key(raw), raw)]
  }

  /** The ingestor refuses the payload now. */
  predicate Refused(w: World, now: int, raw: Raw) {
    w.faulty(raw) || w.key(raw).ts - now > w.skew
  }

  predicate Enabled(w: World, s: State, step: Step) {
    match step
    case Wait(to) => to >= s.now
    case Append(_) => true
    case Peek(batch) => s.publisher.Idle? && forall e :: e in batch ==> e.id in s.spool && s.spool[e.id] == e.raw
    case CopyToQuarantine =>
      s.publisher.Draining? && s.publisher.i < |s.publisher.entries| && !w.valid(s.publisher.entries[s.publisher.i].raw)
    case RemoveQuarantined => s.publisher.Copied? && s.publisher.i < |s.publisher.entries|
    case Publish =>
      s.publisher.Draining? && s.publisher.i < |s.publisher.entries| && w.valid(s.publisher.entries[s.publisher.i].raw)
    case BrokerTakes(raw) => raw in s.sent
    case PubAck =>
      s.publisher.Waiting? && s.publisher.i < |s.publisher.entries| && s.publisher.entries[s.publisher.i].raw in s.taken
    case Published => s.publisher.Waiting? && s.publisher.acked && s.publisher.i < |s.publisher.entries|
    case GiveUp => s.publisher.Waiting?
    case EndOfBatch => s.publisher.Draining? && s.publisher.i == |s.publisher.entries|
    case DeleteOne => s.publisher.Deleting? && s.publisher.j < |s.publisher.done|
    case Finish => s.publisher.Deleting? && s.publisher.j == |s.publisher.done|
    case PublisherCrash => true
    case Deliver(raw) => s.ingestor.Ready? && raw in s.held
    case Store => s.ingestor.Handling? && !Refused(w, s.now, s.ingestor.raw)
    case Reject => s.ingestor.Handling? && Refused(w, s.now, s.ingestor.raw)
    case Ack => s.ingestor.Final?
    case IngestorCrash => true
  }

  function Apply(w: World, s: State, step: Step): State
    requires Enabled(w, s, step)
  {
    var p := s.publisher;
    match step
    case Wait(to) => s.(now := to)
    case Append(raw) =>
      s.(next := s.next + 1, spool := s.spool[s.next := raw], appended := s.appended[s.next := raw],
         seen := if raw in s.seen then s.seen else s.seen[raw := s.now])
    case Peek(batch) => s.(publisher := Draining(batch, 0, []))
    case CopyToQuarantine =>
      var id := p.entries[p.i].id;
      s.(quarantine := if id in s.spool then s.quarantine[id := s.spool[id]] else s.quarantine,
         publisher := Copied(p.entries, p.i, p.done))
    case RemoveQuarantined =>
      s.(spool := s.spool - {p.entries[p.i].id}, publisher := Draining(p.entries, p.i + 1, p.done))
    case Publish =>
      s.(sent := s.sent + {p.entries[p.i].raw}, publisher := Waiting(p.entries, p.i, p.done, false))
    case BrokerTakes(raw) => s.(held := s.held + multiset{raw}, taken := s.taken + {raw})
    case PubAck => s.(publisher := p.(acked := true))
    case Published => s.(publisher := Draining(p.entries, p.i + 1, p.done + [p.entries[p.i].id]))
    case GiveUp => s.(publisher := Deleting(p.done, 0))
    case EndOfBatch => s.(publisher := Deleting(p.done, 0))
    case DeleteOne => s.(spool := s.spool - {p.done[p.j]}, publisher := p.(j := p.j + 1))
    case Finish => s.(publisher := Idle)
    case PublisherCrash => s.(publisher := Idle)
    case Deliver(raw) => s.(ingestor := Handling(raw))
    case Store => s.(rows := Inserted(w, s.rows, s.ingestor.raw), ingestor := Final(s.ingestor.raw))
    case Reject => s.(rejected := s.rejected + {s.ingestor.raw}, ingestor := Final(s.ingestor.raw))
    case Ack => s.(held := s.held - multiset{s.ingestor.raw}, ingestor := Ready)
    case IngestorCrash => s.(ingestor := Ready)
  }

  // ---- what always holds ----------------------------------------------------------------------

  /** The outcome of a payload is final: its fix is stored, or it was refused for good. */
  ghost predicate Settled(w: World, s: State, raw: Raw) {
    KeyStored(s.rows, w.key(raw)) || raw in s.rejected
  }

  /** It is settled, or the broker holds it unacknowledged. */
  ghost predicate Delivered(w: World, s: State, raw: Raw) {
    raw in s.held || Settled(w, s, raw)
  }

  /** Every payload ever spooled is in the spool, in quarantine, held by the broker, stored or
      refused for good. */
  ghost predicate Conserved(w: World, s: State) {
    forall id :: id in s.appended ==> id in s.spool || id in s.quarantine || Delivered(w, s, s.appended[id])
  }

  ghost predicate NoTwice(rows: seq<Row>) {
    forall i, j :: 0 <= i < j < |rows| ==> rows[i].key != rows[j].key
  }

  ghost predicate Known(s: State) {
    && (forall id :: id in s.appended ==> id < s.next)
    && (forall id :: id in s.spool ==> id in s.appended && s.spool[id] == s.appended[id])
    && (forall id :: id in s.quarantine ==> id in s.appended && s.quarantine[id] == s.appended[id])
  }

  ghost predicate AllDelivered(w: World, s: State, ids: seq<nat>) {
    forall d :: d in ids ==> d in s.appended && Delivered(w, s, s.appended[d])
  }

  ghost predicate FromSpool(s: State, entries: seq<Entry>) {
    forall e :: e in entries ==> e.id in s.appended && s.appended[e.id] == e.raw
  }

  /** What the drain loop may rely on: the entries are as they were spooled, and those to delete
      have been delivered. */
  ghost predicate Safe(w: World, s: State) {
    match s.publisher
    case Idle => true
    case Draining(entries, _, done) => FromSpool(s, entries) && AllDelivered(w, s, done)
    case Copied(entries, i, done) =>
      FromSpool(s, entries) && AllDelivered(w, s, done)
      && (i < |entries| ==> entries[i].id in s.quarantine || entries[i].id !in s.spool)
    case Waiting(entries, i, done, acked) =>
      FromSpool(s, entries) && AllDelivered(w, s, done) && (acked && i < |entries| ==> entries[i].raw in s.taken)
    case Deleting(done, _) => AllDelivered(w, s, done)
  }

  /** A payload the ingestor may refuse: it always would, or it was dated too far ahead when it was
      first spooled. */
  ghost predicate Refusable(w: World, s: State, raw: Raw) {
    w.faulty(raw) || (raw in s.seen && w.key(raw).ts - s.seen[raw] > w.skew)
  }

  ghost predicate Dated(s: State) {
    && (forall raw :: raw in s.seen ==> s.seen[raw] <= s.now)
    && (forall id :: id in s.appended ==> s.appended[id] in s.seen)
  }

  /** All that moves was spooled first. */
  ghost predicate Moving(s: State) {
    && (forall raw :: raw in s.sent || raw in s.taken || raw in s.held ==> raw in s.seen)
    && (!s.ingestor.Ready? ==> s.ingestor.raw in s.seen)
  }

  ghost predicate Traced(s: State) {
    Dated(s) && Moving(s)
  }

  /** Only payloads that may be have been refused, ... */
  ghost predicate OnlyRefusable(w: World, s: State) {
    forall raw :: raw in s.rejected ==> Refusable(w, s, raw)
  }

  /** ... and only invalid ones quarantined. */
  ghost predicate OnlyInvalid(w: World, s: State) {
    forall id :: id in s.quarantine ==> !w.valid(s.quarantine[id])
  }

  ghost predicate Inv(w: World, s: State) {
    && Conserved(w, s) && NoTwice(s.rows) && Known(s) && Safe(w, s) && Traced(s)
    && OnlyRefusable(w, s) && OnlyInvalid(w, s)
    && (forall raw :: raw in s.taken ==> Delivered(w, s, raw))
    && (s.ingestor.Final? ==> Settled(w, s, s.ingestor.raw))
  }

  lemma InitHolds(w: World, s: State)
    requires Init(s)
    ensures Inv(w, s)
  {
  }

  lemma StoredStays(rows: seq<Row>, more: seq<Row>, k: FixKey)
    requires KeyStored(rows, k)
    ensures KeyStored(rows + more, k)
  {
    var r :| r in rows && r.key == k;
    assert r in rows + more;
  }

  lemma InsertStores(w: World, rows: seq<Row>, raw: Raw)
    requires NoTwice(rows)
    ensures KeyStored(Inserted(w, rows, raw), w.key(raw)) && NoTwice(Inserted(w, rows, raw))
    ensures rows <= Inserted(w, rows, raw)
  {
    if !KeyStored(rows, w.key(raw)) {
      assert Row(w.key(raw), raw) in rows + [Row(w.key(raw), raw)];
      assert forall i :: 0 <= i < |rows| ==> rows[i] in rows;
    }
  }

  /** What is delivered stays delivered. */
  lemma {:induction false} DeliveredStays(w: World, s: State, step: Step, raw: Raw)
    requires Inv(w, s) && Enabled(w, s, step) && Delivered(w, s, raw)
    ensures Delivered(w, Apply(w, s, step), raw)
  {
    hide Traced, OnlyRefusable, OnlyInvalid, Refused;
    var t := Apply(w, s, step);
    hide Conserved, NoTwice, Known, Safe;
    if Settled(w, s, raw) {
      SettledStays(w, s, step, raw);
    } else if step.Ack? && s.ingestor.raw == raw {
      assert false;
    } else {
      assert raw in t.held;
    }
  }

  lemma SettledStays(w: World, s: State, step: Step, raw: Raw)
    requires Enabled(w, s, step) && Settled(w, s, raw)
    ensures Settled(w, Apply(w, s, step), raw)
  {
    hide KeyStored;
    if step.Store? && KeyStored(s.rows, w.key(raw)) {
      StoredStays(s.rows, [Row(w.key(s.ingestor.raw), s.ingestor.raw)], w.key(raw));
    }
  }

  lemma {:induction false} KnownKept(w: World, s: State, step: Step)
    requires Inv(w, s) && Enabled(w, s, step)
    ensures Known(Apply(w, s, step))
  {
    hide Traced, OnlyRefusable, OnlyInvalid, Refused;
    hide Conserved, NoTwice, Delivered, Settled;
  }

  lemma {:induction false} TakenKept(w: World, s: State, step: Step)
    requires Inv(w, s) && Enabled(w, s, step)
    ensures var t := Apply(w, s, step); forall raw :: raw in t.taken ==> Delivered(w, t, raw)
  {
    hide Traced, OnlyRefusable, OnlyInvalid, Refused;
    hide Conserved, NoTwice, Known, Safe;
    var t := Apply(w, s, step);
    forall raw | raw in t.taken ensures Delivered(w, t, raw) {
      if raw in s.taken {
        DeliveredStays(w, s, step, raw);
      }
    }
  }

  lemma {:induction false} OutcomeKept(w: World, s: State, step: Step)
    requires Inv(w, s) && Enabled(w, s, step)
    ensures var t := Apply(w, s, step); NoTwice(t.rows) && s.rows <= t.rows
    ensures var t := Apply(w, s, step); t.ingestor.Final? ==> Settled(w, t, t.ingestor.raw)
  {
    hide Traced, OnlyRefusable, OnlyInvalid, Refused;
    hide Conserved, Known, Safe, Delivered;
    if step.Store? {
      InsertStores(w, s.rows, s.ingestor.raw);
    } else if s.ingestor.Final? {
      SettledStays(w, s, step, s.ingestor.raw);
    }
  }

  /** A row leaves the spool only when it is in quarantine, or has been delivered. */
  lemma {:induction false} ConservedKept(w: World, s: State, step: Step)
    requires Inv(w, s) && Enabled(w, s, step)
    ensures Conserved(w, Apply(w, s, step))
  {
    hide Traced, OnlyRefusable, OnlyInvalid, Refused;
    hide NoTwice, Delivered, KeyStored;
    var t := Apply(w, s, step);
    forall id | id in t.appended ensures id in t.spool || id in t.quarantine || Delivered(w, t, t.appended[id]) {
      if id in s.appended {
        if Delivered(w, s, s.appended[id]) {
          DeliveredStays(w, s, step, s.appended[id]);
        } else if step.DeleteOne? {
          assert s.publisher.done[s.publisher.j] in s.publisher.done;
        }
      }
    }
  }

  lemma {:induction false} AllStay(w: World, s: State, step: Step, ids: seq<nat>)
    requires Inv(w, s) && Enabled(w, s, step) && AllDelivered(w, s, ids)
    ensures AllDelivered(w, Apply(w, s, step), ids)
  {
    hide Traced, OnlyRefusable, OnlyInvalid, Refused;
    hide Conserved, NoTwice, Delivered, Safe;
    forall d | d in ids
      ensures d in Apply(w, s, step).appended && Delivered(w, Apply(w, s, step), Apply(w, s, step).appended[d])
    {
      DeliveredStays(w, s, step, s.appended[d]);
    }
  }

  lemma {:induction false} FromStays(w: World, s: State, step: Step, entries: seq<Entry>)
    requires Inv(w, s) && Enabled(w, s, step) && FromSpool(s, entries)
    ensures FromSpool(Apply(w, s, step), entries)
  {
    hide Traced, OnlyRefusable, OnlyInvalid, Refused;
    hide Conserved, NoTwice, Delivered, Safe;
  }

  lemma {:induction false} SafeKept(w: World, s: State, step: Step)
    requires Inv(w, s) && Enabled(w, s, step)
    ensures Safe(w, Apply(w, s, step))
  {
    hide Traced, OnlyRefusable, OnlyInvalid, Refused, Conserved, NoTwice, KeyStored, Inserted;
    var p, t := s.publisher, Apply(w, s, step);
    if p.Draining? || p.Copied? || p.Waiting? {
      AllStay(w, s, step, p.done);
      FromStays(w, s, step, p.entries);
    } else if p.Deleting? {
      AllStay(w, s, step, p.done);
    }
    hide Delivered;
    if step.Published? {
      assert p.entries[p.i] in p.entries;
      DeliveredStays(w, s, step, p.entries[p.i].raw);
    }
  }

  /** The payload the publisher is at, if it is at one, was spooled. */
  lemma EntrySeen(w: World, s: State)
    requires Safe(w, s) && Traced(s)
    ensures var p := s.publisher;
            && (p.Draining? || p.Copied? || p.Waiting? ==>
                  forall e :: e in p.entries ==> e.id in s.appended && s.appended[e.id] == e.raw && e.raw in s.seen)
  {
    hide Delivered;
  }

  lemma {:induction false} DatedKept(w: World, s: State, step: Step)
    requires Dated(s) && Enabled(w, s, step)
    ensures Dated(Apply(w, s, step)) && s.seen.Keys <= Apply(w, s, step).seen.Keys
  {
    hide Inserted, KeyStored, Refused;
  }

  lemma {:induction false} TracedKept(w: World, s: State, step: Step)
    requires Safe(w, s) && Traced(s) && Enabled(w, s, step)
    ensures Traced(Apply(w, s, step))
  {
    DatedKept(w, s, step);
    EntrySeen(w, s);
    hide Dated, Safe, Inserted, KeyStored, Refused;
    var p := s.publisher;
    if step.Publish? {
      assert p.entries[p.i] in p.entries;
    }
  }

  lemma RefusableStays(w: World, s: State, step: Step, raw: Raw)
    requires Enabled(w, s, step) && Refusable(w, s, raw)
    ensures Refusable(w, Apply(w, s, step), raw)
  {
    hide Inserted, Refused;
  }

  /** A payload refused now was dated too far ahead when it was first spooled, if it is not one that
      always is. */
  lemma RefusedNow(w: World, s: State)
    requires Traced(s) && s.ingestor.Handling? && Refused(w, s.now, s.ingestor.raw)
    ensures Refusable(w, s, s.ingestor.raw)
  {
  }

  lemma {:induction false} RefusableKept(w: World, s: State, step: Step)
    requires Traced(s) && OnlyRefusable(w, s) && Enabled(w, s, step)
    ensures OnlyRefusable(w, Apply(w, s, step))
  {
    var t := Apply(w, s, step);
    RejectedBy(w, s, step);
    hide Traced, Apply, Enabled, Refused, Refusable;
    forall raw | raw in t.rejected ensures Refusable(w, t, raw) {
      if raw !in s.rejected {
        RefusedNow(w, s);
      }
      RefusableStays(w, s, step, raw);
    }
  }

  lemma RejectedBy(w: World, s: State, step: Step)
    requires Enabled(w, s, step)
    ensures forall raw :: raw in Apply(w, s, step).rejected && raw !in s.rejected ==>
      s.ingestor.Handling? && s.ingestor.raw == raw && Refused(w, s.now, raw)
  {
    hide Inserted, Refused;
  }

  lemma {:induction false} InvalidKept(w: World, s: State, step: Step)
    requires Known(s) && Safe(w, s) && Traced(s) && OnlyInvalid(w, s) && Enabled(w, s, step)
    ensures OnlyInvalid(w, Apply(w, s, step))
  {
    EntrySeen(w, s);
    hide Safe, Traced, Inserted, KeyStored, Refused;
    var p := s.publisher;
    if step.CopyToQuarantine? {
      assert p.entries[p.i] in p.entries;
    }
  }

  /** Every step keeps the invariant. */
  lemma {:induction false} StepKeeps(w: World, s: State, step: Step)
    requires Inv(w, s) && Enabled(w, s, step)
    ensures Inv(w, Apply(w, s, step)) && s.rows <= Apply(w, s, step).rows
  {
    KnownKept(w, s, step);
    TakenKept(w, s, step);
    OutcomeKept(w, s, step);
    ConservedKept(w, s, step);
    SafeKept(w, s, step);
    TracedKept(w, s, step);
    RefusableKept(w, s, step);
    InvalidKept(w, s, step);
    hide Traced, OnlyRefusable, OnlyInvalid, Conserved, Known, Safe, Delivered, Settled, NoTwice, Apply, Enabled;
  }

  // ---- every run ------------------------------------------------------------------------------

  /** A run: each state follows from the last by a step that was possible. */
  ghost predicate Run(w: World, trace: seq<State>) {
    |trace| > 0 && Init(trace[0]) && forall n :: 0 < n < |trace| ==> Follows(w, trace[n-1], trace[n])
  }

  ghost predicate Follows(w: World, s: State, t: State) {
    exists step :: Enabled(w, s, step) && Apply(w, s, step) == t
  }

  lemma {:induction false} RunInv(w: World, trace: seq<State>, n: nat)
    requires Run(w, trace) && n < |trace|
    ensures Inv(w, trace[n])
  {
    hide Inv, Enabled, Apply, Init;
    if n == 0 {
      InitHolds(w, trace[0]);
    } else {
      RunInv(w, trace, n - 1);
      assert Follows(w, trace[n-1], trace[n]);
      var step :| Enabled(w, trace[n-1], step) && Apply(w, trace[n-1], step) == trace[n];
      StepKeeps(w, trace[n-1], step);
    }
  }

  /** In every reachable state, whatever crashed and when, each payload ever spooled is in the
      spool, in quarantine, held unacknowledged by the broker, stored or refused for good; no
      (site, asset, time) is stored twice. */
  lemma {:induction false} NothingLost(w: World, trace: seq<State>, n: nat)
    requires Run(w, trace) && n < |trace|
    ensures Conserved(w, trace[n]) && NoTwice(trace[n].rows)
  {
    hide Run, Conserved, NoTwice;
    RunInv(w, trace, n);
  }

  /** What is stored is never changed or lost. */
  lemma {:induction false} RowsStay(w: World, trace: seq<State>, m: nat, n: nat)
    requires Run(w, trace) && m <= n < |trace|
    ensures trace[m].rows <= trace[n].rows
  {
    hide Inv, Enabled, Apply, Init;
    if m < n {
      RowsStay(w, trace, m, n - 1);
      RunInv(w, trace, n - 1);
      assert Follows(w, trace[n-1], trace[n]);
      var step :| Enabled(w, trace[n-1], step) && Apply(w, trace[n-1], step) == trace[n];
      StepKeeps(w, trace[n-1], step);
    }
  }

  /** Only a payload that always is refused, or was dated too far ahead when it was first spooled, is
      ever refused for good. */
  lemma {:induction false} RefusedOnly(w: World, trace: seq<State>, n: nat, raw: Raw)
    requires Run(w, trace) && n < |trace| && raw in trace[n].rejected
    ensures Refusable(w, trace[n], raw)
  {
    hide Run;
    RunInv(w, trace, n);
  }

  /** When spool and broker are at rest, every payload the publisher finds valid is stored, unless it is
      one of those. */
  lemma {:induction false} AtRest(w: World, trace: seq<State>, n: nat, id: nat)
    requires Run(w, trace) && n < |trace| && id in trace[n].appended && w.valid(trace[n].appended[id])
    requires trace[n].spool == map[] && trace[n].held == multiset{}
    ensures KeyStored(trace[n].rows, w.key(trace[n].appended[id])) || Refusable(w, trace[n], trace[n].appended[id])
  {
    hide Run;
    RunInv(w, trace, n);
    hide KeyStored, NoTwice, Safe, Refusable;
  }

  // ---- what is stored, and what leaves the spool ----------------------------------------------

  /** Every row holds a payload that was spooled, under that payload's key, and not one the ingestor refuses. */
  ghost predicate RowsTrue(w: World, s: State) {
    forall r :: r in s.rows ==>
      r.raw in s.seen && r.key == w.key(r.raw) && !w.faulty(r.raw) && r.key.ts <= s.now + w.skew
  }

  lemma {:induction false} RowsTrueKept(w: World, s: State, step: Step)
    requires Traced(s) && RowsTrue(w, s) && Enabled(w, s, step)
    ensures RowsTrue(w, Apply(w, s, step))
  {
    DatedKept(w, s, step);
    RowsFrom(w, s, step);
    var t := Apply(w, s, step);
    hide Dated, KeyStored, Apply, Enabled, Inserted;
    forall r | r in t.rows
      ensures r.raw in t.seen && r.key == w.key(r.raw) && !w.faulty(r.raw) && r.key.ts <= t.now + w.skew
    {
    }
  }

  /** A new row is of the payload in hand, which is not refused. */
  lemma RowsFrom(w: World, s: State, step: Step)
    requires Enabled(w, s, step)
    ensures s.now <= Apply(w, s, step).now
    ensures forall r :: r in Apply(w, s, step).rows && r !in s.rows ==>
      !s.ingestor.Ready? && r == Row(w.key(s.ingestor.raw), s.ingestor.raw) && !Refused(w, s.now, s.ingestor.raw)
  {
    hide KeyStored, Refused;
  }

  /** In every reachable state each row holds a payload spooled before, under its own key, that was neither faulty
      nor dated further ahead of the clock than the skew. */
  lemma {:induction false} StoredTrue(w: World, trace: seq<State>, n: nat)
    requires Run(w, trace) && n < |trace|
    ensures RowsTrue(w, trace[n])
  {
    hide Inv, Enabled, Apply, Init;
    if n == 0 {
      StartTrue(w, trace[0]);
    } else {
      StoredTrue(w, trace, n - 1);
      RunInv(w, trace, n - 1);
      assert Follows(w, trace[n-1], trace[n]);
      var step :| Enabled(w, trace[n-1], step) && Apply(w, trace[n-1], step) == trace[n];
      InvTraced(w, trace[n-1]);
      RowsTrueKept(w, trace[n-1], step);
    }
  }

  lemma StartTrue(w: World, s: State)
    requires Init(s)
    ensures RowsTrue(w, s) && Cleared(s)
  {
  }

  lemma InvTraced(w: World, s: State)
    requires Inv(w, s)
    ensures Traced(s) && Known(s) && Safe(w, s)
  {
    hide Traced, Known, Safe, Conserved, OnlyRefusable, OnlyInvalid, Delivered, Settled;
  }

  /** The entries deleted so far are out of the spool: no id is given twice. */
  ghost predicate Cleared(s: State) {
    s.publisher.Deleting? ==>
      s.publisher.j <= |s.publisher.done| && forall k :: 0 <= k < s.publisher.j ==> s.publisher.done[k] !in s.spool
  }

  lemma {:induction false} ClearedKept(w: World, s: State, step: Step)
    requires Known(s) && Safe(w, s) && Cleared(s) && Enabled(w, s, step)
    ensures Cleared(Apply(w, s, step))
  {
    hide Delivered, Inserted, KeyStored, Refused;
    if step.Append? && s.publisher.Deleting? {
      assert forall k :: 0 <= k < |s.publisher.done| ==> s.publisher.done[k] in s.publisher.done;
    }
  }

  lemma {:induction false} RunCleared(w: World, trace: seq<State>, n: nat)
    requires Run(w, trace) && n < |trace|
    ensures Cleared(trace[n])
  {
    hide Inv, Enabled, Apply, Init, Cleared;
    if n == 0 {
      StartTrue(w, trace[0]);
    } else {
      RunCleared(w, trace, n - 1);
      RunInv(w, trace, n - 1);
      assert Follows(w, trace[n-1], trace[n]);
      var step :| Enabled(w, trace[n-1], step) && Apply(w, trace[n-1], step) == trace[n];
      InvTraced(w, trace[n-1]);
      ClearedKept(w, trace[n-1], step);
    }
  }

  /** When a drain finishes, every entry the broker acknowledged in it has left the spool, and has been delivered. */
  lemma {:induction false} FinishClears(w: World, trace: seq<State>, n: nat, id: nat)
    requires Run(w, trace) && n < |trace| && Enabled(w, trace[n], Finish) && id in trace[n].publisher.done
    ensures id !in Apply(w, trace[n], Finish).spool
    ensures id in trace[n].appended && Delivered(w, trace[n], trace[n].appended[id])
  {
    hide Run, Delivered, Inv;
    RunCleared(w, trace, n);
    RunInv(w, trace, n);
    InvTraced(w, trace[n]);
    var p := trace[n].publisher;
    var k :| 0 <= k < |p.done| && p.done[k] == id;
  }

  /** Where the first `n` of a series of steps lead, as far as each is possible. */
  function Play(w: World, s: State, steps: seq<Step>, n: nat): State
    requires n <= |steps|
  {
    if n == 0 then s
    else
      var t := Play(w, s, steps, n - 1);
      if Enabled(w, t, steps[n-1]) then Apply(w, t, steps[n-1]) else t
  }

  lemma PlayOne(w: World, s: State, steps: seq<Step>, n: nat, t: State)
    requires n < |steps| && Play(w, s, steps, n) == t && Enabled(w, t, steps[n])
    ensures Play(w, s, steps, n + 1) == Apply(w, t, steps[n])
  {
    hide Enabled, Apply;
  }

  function Sending(id: nat, raw: Raw): seq<Step> {
    [Peek([Entry(id, raw)]), Publish, BrokerTakes(raw), PubAck, Published, EndOfBatch, DeleteOne, Finish]
  }

  lemma PlaySent(w: World, s: State, id: nat, raw: Raw)
    requires s.publisher.Idle? && id in s.spool && s.spool[id] == raw && w.valid(raw)
    ensures Play(w, s, Sending(id, raw), 4) ==
      s.(sent := s.sent + {raw}, held := s.held + multiset{raw}, taken := s.taken + {raw},
         publisher := Waiting([Entry(id, raw)], 0, [], true))
  {
    var steps, e := Sending(id, raw), [Entry(id, raw)];
    hide Play, Inserted, Refused, KeyStored;
    PlayNone(w, s, steps);
    PlayOne(w, s, steps, 0, s);
    var a := s.(publisher := Draining(e, 0, []));
    PlayOne(w, s, steps, 1, a);
    var b := a.(sent := s.sent + {raw}, publisher := Waiting(e, 0, [], false));
    PlayOne(w, s, steps, 2, b);
    var c := b.(held := s.held + multiset{raw}, taken := s.taken + {raw});
    PlayOne(w, s, steps, 3, c);
  }

  lemma PlayEnded(w: World, s: State, id: nat, raw: Raw, t: State)
    requires Play(w, s, Sending(id, raw), 4) == t && t.publisher == Waiting([Entry(id, raw)], 0, [], true)
    ensures Play(w, s, Sending(id, raw), 6) == t.(publisher := Deleting([id], 0))
  {
    var steps := Sending(id, raw);
    hide Play, Inserted, Refused, KeyStored;
    PlayOne(w, s, steps, 4, t);
    var done: seq<nat> := [];
    assert done + [id] == [id];
    PlayOne(w, s, steps, 5, t.(publisher := Draining([Entry(id, raw)], 1, [id])));
  }

  lemma PlayDeleted(w: World, s: State, id: nat, raw: Raw, t: State)
    requires Play(w, s, Sending(id, raw), 6) == t && t.publisher == Deleting([id], 0)
    ensures Play(w, s, Sending(id, raw), 8) == t.(spool := t.spool - {id}, publisher := Idle)
  {
    var steps := Sending(id, raw);
    hide Play, Inserted, Refused, KeyStored;
    PlayOne(w, s, steps, 6, t);
    var u := Play(w, s, steps, 7);
    assert u.publisher == Deleting([id], 1) && u.spool == t.spool - {id};
    PlayOne(w, s, steps, 7, u);
  }

  /** From rest, an entry can always be drained: a valid one, with a broker that takes it, to the broker, ... */
  lemma DrainsValid(w: World, s: State, id: nat)
    requires s.publisher.Idle? && id in s.spool && w.valid(s.spool[id])
    ensures var raw := s.spool[id]; var t := Play(w, s, Sending(id, raw), 8);
            t.spool == s.spool - {id} && t.held == s.held + multiset{raw} && t.publisher == Idle && t.rows == s.rows
  {
    var raw := s.spool[id];
    PlaySent(w, s, id, raw);
    hide Play, Sending, Enabled, Apply;
    PlayEnded(w, s, id, raw, Play(w, s, Sending(id, raw), 4));
    PlayDeleted(w, s, id, raw, Play(w, s, Sending(id, raw), 6));
  }

  lemma PlayNone(w: World, s: State, steps: seq<Step>)
    ensures Play(w, s, steps, 0) == s
  {
  }

  function SettingAside(id: nat, raw: Raw): seq<Step> {
    [Peek([Entry(id, raw)]), CopyToQuarantine, RemoveQuarantined, EndOfBatch, Finish]
  }

  /** ... and an invalid one into quarantine. */
  lemma DrainsInvalid(w: World, s: State, id: nat)
    requires s.publisher.Idle? && id in s.spool && !w.valid(s.spool[id])
    ensures var raw := s.spool[id]; var t := Play(w, s, SettingAside(id, raw), 5);
            t == s.(spool := s.spool - {id}, quarantine := s.quarantine[id := raw])
  {
    var raw := s.spool[id];
    var steps, e := SettingAside(id, raw), [Entry(id, raw)];
    hide Play, Inserted, Refused, KeyStored;
    PlayNone(w, s, steps);
    PlayOne(w, s, steps, 0, s);
    var a := s.(publisher := Draining(e, 0, []));
    PlayOne(w, s, steps, 1, a);
    var b := s.(quarantine := s.quarantine[id := raw], publisher := Copied(e, 0, []));
    PlayOne(w, s, steps, 2, b);
    var c := b.(spool := s.spool - {id}, publisher := Draining(e, 1, []));
    PlayOne(w, s, steps, 3, c);
    var d := c.(publisher := Deleting([], 0));
    PlayOne(w, s, steps, 4, d);
  }
}

/** The pipeline one event at a time, as a function of the histories it has built up. */
module Sequential {
  import opened Base
  import opened Ttl
  import opened Slots
  import opened Chain
  import opened Events
  import opened Promises
  import opened Summary

  type GateLog = seq<Use<string, Time>>

  /** What was exported, by value. */
  datatype Record = Record(name: string, raw: Raw, dateTime: int, clockDrift: u64, timing: Option<BlockTiming>)

  /** The histories: uses of each duplicate cache, slot recordings, exports, and what the summary was
      told since its last reset. */
  datatype World = World(dup: map<CacheId, GateLog>, slots: SlotLog, records: seq<Record>,
                         adds: seq<Add>, exported: nat)

  /** A new handler's. */
  const EMPTY: World := World(map id: CacheId | true :: [], [], [], [], 0)

  /** The clock readings one call makes: at the slot cache, at the duplicate cache, at the age check. */
  datatype Readings = Readings(placedAt: Time, gateAt: Time, ageAt: Time) {
    predicate Ordered() { placedAt <= gateAt <= ageAt }
  }

  ghost predicate SeenIn(dup: map<CacheId, GateLog>, raw: Raw, key: string, at: Time)
    requires raw.Parsed()
  {
    CacheOf(raw) in dup && Seen(dup[CacheOf(raw)], key, CacheTtl(CacheOf(raw)), at)
  }

  /** The decision on an event whose slot has been settled. */
  ghost function Judge(setting: Setting, dup: map<CacheId, GateLog>, raw: Raw, slot: u64,
                       gateAt: Time, ageAt: Time): Outcome
    requires setting.wallclock.Valid()
  {
    Verdict(setting, raw, KeyOf(setting, raw).Ok? && SeenIn(dup, raw, KeyOf(setting, raw).value, gateAt), slot, ageAt)
  }

  ghost function OutcomeOf(setting: Setting, w: World, raw: Raw, r: Readings): Outcome
    requires setting.wallclock.Valid()
  {
    Judge(setting, w.dup, raw, EffectiveSlot(w.slots, raw, r.placedAt), r.gateAt, r.ageAt)
  }

  /** A use of `key`: a key seen within the TTL keeps its value, any other takes the new one. */
  ghost function NextUse(log: GateLog, key: string, stamp: Time, ttl: int, at: Time): Use<string, Time> {
    var last: Option<Use<string, Time>> := LastUse<string, Time>(log, key);
    var value: Time := if Seen(log, key, ttl, at) && last.Some? then last.value.value else stamp;
    Use(key, value, at)
  }

  ghost function DupAfter(setting: Setting, dup: map<CacheId, GateLog>, raw: Raw, at: Time): map<CacheId, GateLog> {
    if KeyOf(setting, raw).Ok? && CacheOf(raw) in dup then
      var id := CacheOf(raw);
      dup[id := dup[id] + [NextUse(dup[id], KeyOf(setting, raw).value, UnixMilli(raw.timestampMs), CacheTtl(id), at)]]
    else dup
  }

  ghost function SlotsAfter(slots: SlotLog, raw: Raw, at: Time): SlotLog {
    if raw.Feeds() then Noted(slots, raw.blockRoot, raw.slot, at) else slots
  }

  ghost function RecordOf(setting: Setting, drift: i64, raw: Raw, slot: u64): Record
    requires setting.wallclock.Valid() && raw.Parsed()
  {
    Record(Topic(raw), raw, UnixMilli(raw.timestampMs) + drift, ClockDriftMillis(drift), TimingOf(setting, raw, slot))
  }

  /** An export adds its record, one unit for its topic, and one exported event. */
  ghost function Settle(w: World, raw: Raw, outcome: Outcome, record: Record): World
    requires raw.Parsed()
  {
    if outcome == Exported then
      w.(records := w.records + [record], adds := w.adds + [Add(Topic(raw), 1)], exported := w.exported + 1)
    else w
  }

  /** From the duplicate cache on: the gate, the age check and the export of an event with that slot. */
  ghost function Finish(setting: Setting, w: World, drift: i64, raw: Raw, slot: u64, r: Readings): World
    requires setting.wallclock.Valid() && raw.Parsed()
  {
    Settle(w.(dup := DupAfter(setting, w.dup, raw, r.gateAt)), raw,
           Judge(setting, w.dup, raw, slot, r.gateAt, r.ageAt), RecordOf(setting, drift, raw, slot))
  }

  /** One HandleRawEvent call. */
  ghost function Handle(setting: Setting, w: World, drift: i64, raw: Raw, r: Readings): World
    requires setting.wallclock.Valid()
  {
    if raw.Parsed() then
      Finish(setting, w.(slots := SlotsAfter(w.slots, raw, r.placedAt)), drift, raw,
             EffectiveSlot(w.slots, raw, r.placedAt), r)
    else w
  }

  /** What cannot be unmarshalled, or is of no known type, leaves no trace. */
  lemma UnparsedLeavesNoTrace(setting: Setting, w: World, drift: i64, raw: Raw, r: Readings)
    requires setting.wallclock.Valid() && !raw.Parsed()
    ensures Handle(setting, w, drift, raw, r) == w
    ensures OutcomeOf(setting, w, raw, r) == Failed(if raw.Malformed? then ParseFailure else UnsupportedEventType)
  {
  }

  // ----- one call, by type, literal and number -----

  /** The slot a call works with: its own, except that a part or a verdict may get it from the slot cache. */
  ghost function SlotBefore(w: World, raw: Raw, at: Time): u64
    requires !raw.Malformed? && !raw.Unsupported?
  {
    if AsksSlot(raw) then Resolved(w.slots, raw.blockRoot, 0, at) else raw.slot
  }

  /** What becomes of the event, given the uses of its cache before it. */
  ghost predicate EndsAs(setting: Setting, log: GateLog, raw: Raw, slot: u64, r: Readings, outcome: Outcome)
    requires setting.wallclock.Valid()
  {
    match Rejection(setting, raw)
    case Some(e) => outcome == Failed(e)
    case None =>
      if Seen(log, KeyText(setting, raw), Window(raw), r.gateAt) then outcome == Ignored
      else Decides(setting.wallclock, raw, slot, r.ageAt, outcome)
  }

  /** The record of an exported event: its type's name, its date, the drift, and the timing of its slot. */
  ghost predicate RecordSays(setting: Setting, drift: i64, raw: Raw, slot: u64, record: Record)
    requires setting.wallclock.Valid() && !raw.Malformed? && !raw.Unsupported?
  {
    && record.name == EventName(raw) && record.raw == raw
    && record.dateTime == raw.timestampMs * 1_000_000 + drift && record.clockDrift == Abs(drift) / 1_000_000
    && TimedAs(setting.wallclock, raw, slot, record.timing)
  }

  /** What a call adds to the histories: the slot it tells, one use if it is accepted, and, if it is exported,
      one record, one unit for its name, and one exported event. */
  ghost predicate Adds(setting: Setting, w: World, w': World, drift: i64, raw: Raw, r: Readings, exported: bool)
    requires setting.wallclock.Valid() && !raw.Malformed? && !raw.Unsupported? && CacheOf(raw) in w.dup
  {
    var slot, log, n := SlotBefore(w, raw, r.placedAt), w.dup[CacheOf(raw)], |w.records|;
    && w'.slots == w.slots + (if TellsSlot(raw) then [Use(raw.blockRoot, raw.slot, r.placedAt)] else [])
    && (Rejection(setting, raw).Some? ==> w'.dup == w.dup)
    && (Rejection(setting, raw).None? ==>
          w'.dup == w.dup[CacheOf(raw) := log + [NextUse(log, KeyText(setting, raw), raw.timestampMs * 1_000_000,
                                                         Window(raw), r.gateAt)]])
    && (!exported ==> w'.records == w.records && w'.adds == w.adds && w'.exported == w.exported)
    && (exported ==>
          && |w'.records| == n + 1 && w'.records[..n] == w.records
          && RecordSays(setting, drift, raw, slot, w'.records[n])
          && w'.adds == w.adds + [Add(EventName(raw), 1)] && w'.exported == w.exported + 1)
  }

  /** The whole of one call: what becomes of the event, and what is added. */
  ghost predicate HandledAs(setting: Setting, w: World, w': World, drift: i64, raw: Raw, r: Readings, outcome: Outcome)
    requires setting.wallclock.Valid()
  {
    if raw.Malformed? || raw.Unsupported? then
      w' == w && outcome == Failed(if raw.Malformed? then ParseFailure else UnsupportedEventType)
    else
      CacheOf(raw) in w.dup ==>
        && EndsAs(setting, w.dup[CacheOf(raw)], raw, SlotBefore(w, raw, r.placedAt), r, outcome)
        && Adds(setting, w, w', drift, raw, r, outcome == Exported)
  }

  lemma SlotByType(w: World, raw: Raw, at: Time)
    requires raw.Parsed()
    ensures EffectiveSlot(w.slots, raw, at) == SlotBefore(w, raw, at)
    ensures SlotsAfter(w.slots, raw, at)
            == w.slots + if TellsSlot(raw) then [Use(raw.blockRoot, raw.slot, at)] else []
  {
  }

  lemma EndByType(setting: Setting, w: World, raw: Raw, r: Readings)
    requires setting.wallclock.Valid() && raw.Parsed() && CacheOf(raw) in w.dup
    ensures EndsAs(setting, w.dup[CacheOf(raw)], raw, SlotBefore(w, raw, r.placedAt), r, OutcomeOf(setting, w, raw, r))
  {
    KeysByType(setting, raw);
    WindowByType(raw);
    SlotByType(w, raw, r.placedAt);
    AgeByType(setting, raw, SlotBefore(w, raw, r.placedAt), r.ageAt);
    hide KeyOf, Rejection, AgeCheck, CacheOf, EffectiveSlot, Decides;
  }

  lemma RecordByType(setting: Setting, drift: i64, raw: Raw, slot: u64)
    requires setting.wallclock.Valid() && raw.Parsed()
    ensures RecordSays(setting, drift, raw, slot, RecordOf(setting, drift, raw, slot))
  {
    NamesByType(raw);
    TimingByType(setting, raw, slot);
    hide Topic, EventName;
  }

  /** The sequential handler keeps what is promised of each type. */
  lemma HandledByType(setting: Setting, w: World, drift: i64, raw: Raw, r: Readings)
    requires setting.wallclock.Valid()
    ensures HandledAs(setting, w, Handle(setting, w, drift, raw, r), drift, raw, r, OutcomeOf(setting, w, raw, r))
  {
    if raw.Parsed() && CacheOf(raw) in w.dup {
      EndByType(setting, w, raw, r);
      SlotByType(w, raw, r.placedAt);
      RecordByType(setting, drift, raw, SlotBefore(w, raw, r.placedAt));
      NamesByType(raw);
      KeysByType(setting, raw);
      WindowByType(raw);
      hide KeyOf, Rejection, AgeCheck, CacheOf, EffectiveSlot, SlotsAfter, OutcomeOf;
      hide EndsAs, RecordSays, Topic, EventName;
    }
  }

  /** A batch element: a raw event, or JSON whose event type cannot be read. */
  datatype Element = Unreadable | Item(raw: Raw)

  ghost function HandleElement(setting: Setting, w: World, drift: i64, e: Element, r: Readings): World
    requires setting.wallclock.Valid()
  {
    match e case Unreadable => w case Item(raw) => Handle(setting, w, drift, raw, r)
  }

  /** Clock readings for a batch, each call's after the one before it. */
  ghost predicate InOrder(readings: seq<Readings>, from: int) {
    && (forall i :: 0 <= i < |readings| ==> readings[i].Ordered() && from <= readings[i].placedAt)
    && (forall i, j :: 0 <= i < j < |readings| ==> readings[i].ageAt <= readings[j].placedAt)
  }

  /** A batch is handled element by element; no element's error stops the ones after it. */
  ghost function HandleAll(setting: Setting, w: World, drift: i64, batch: seq<Element>, readings: seq<Readings>): World
    requires setting.wallclock.Valid() && |readings| == |batch|
  {
    if batch == [] then w
    else
      var n := |batch| - 1;
      HandleElement(setting, HandleAll(setting, w, drift, batch[..n], readings[..n]), drift, batch[n], readings[n])
  }

  /** Batch A ++ B is batch A, then batch B, under the same readings. */
  lemma {:induction false} BatchConcat(setting: Setting, w: World, drift: i64, a: seq<Element>, b: seq<Element>,
                                       ra: seq<Readings>, rb: seq<Readings>)
    requires setting.wallclock.Valid() && |ra| == |a| && |rb| == |b|
    ensures HandleAll(setting, w, drift, a + b, ra + rb)
            == HandleAll(setting, HandleAll(setting, w, drift, a, ra), drift, b, rb)
  {
    if b == [] {
      assert a + b == a && ra + rb == ra;
    } else {
      var n := |b| - 1;
      assert (a + b)[..|a| + n] == a + b[..n] && (ra + rb)[..|a| + n] == ra + rb[..n];
      BatchConcat(setting, w, drift, a, b[..n], ra, rb[..n]);
    }
  }

  /** How many elements of a batch came to each end. */
  datatype Tally = Tally(unreadable: nat, failed: nat, ignored: nat, exported: nat)

  ghost function TallyOf(setting: Setting, w: World, drift: i64, batch: seq<Element>, readings: seq<Readings>): Tally
    requires setting.wallclock.Valid() && |readings| == |batch|
  {
    if batch == [] then Tally(0, 0, 0, 0)
    else
      var n := |batch| - 1;
      var before := HandleAll(setting, w, drift, batch[..n], readings[..n]);
      var t := TallyOf(setting, w, drift, batch[..n], readings[..n]);
      match batch[n]
      case Unreadable => t.(unreadable := t.unreadable + 1)
      case Item(raw) =>
        match OutcomeOf(setting, before, raw, readings[n])
        case Failed(_) => t.(failed := t.failed + 1)
        case Ignored => t.(ignored := t.ignored + 1)
        case Exported => t.(exported := t.exported + 1)
  }

  /** What one event adds, by how it ended. */
  lemma HandleGrows(setting: Setting, w: World, drift: i64, raw: Raw, r: Readings)
    requires setting.wallclock.Valid()
    ensures var w' := Handle(setting, w, drift, raw, r);
            if OutcomeOf(setting, w, raw, r) == Exported then
              && w.records <= w'.records && |w'.records| == |w.records| + 1
              && w.adds <= w'.adds && |w'.adds| == |w.adds| + 1 && w'.adds[|w.adds|].count == 1
              && w'.exported == w.exported + 1
            else w'.records == w.records && w'.adds == w.adds && w'.exported == w.exported
  {
  }

  /** Every element ends in exactly one way, and the exported ones are what the records, the topic adds
      and the exported count grow by. */
  lemma {:induction false} BatchConserves(setting: Setting, w: World, drift: i64, batch: seq<Element>,
                                          readings: seq<Readings>)
    requires setting.wallclock.Valid() && |readings| == |batch|
    ensures var t, w' := TallyOf(setting, w, drift, batch, readings), HandleAll(setting, w, drift, batch, readings);
            && t.unreadable + t.failed + t.ignored + t.exported == |batch|
            && w.records <= w'.records && |w'.records| == |w.records| + t.exported
            && w.adds <= w'.adds && |w'.adds| == |w.adds| + t.exported
            && w'.exported == w.exported + t.exported
            && (Unit(w.adds) ==> Unit(w'.adds))
  {
    hide Handle, OutcomeOf;
    if batch != [] {
      var n := |batch| - 1;
      BatchConserves(setting, w, drift, batch[..n], readings[..n]);
      if batch[n].Item? {
        HandleGrows(setting, HandleAll(setting, w, drift, batch[..n], readings[..n]), drift, batch[n].raw, readings[n]);
      }
    }
  }

  /** A repeat of the same raw event within the time it is remembered is never exported by the next call, and
      an event that is turned away leaves every duplicate cache as it was. */
  lemma RepeatIsIgnored(setting: Setting, w: World, drift: i64, raw: Raw, first: Readings, again: Readings)
    requires setting.wallclock.Valid() && (raw.Parsed() ==> CacheOf(raw) in w.dup)
    ensures var w' := Handle(setting, w, drift, raw, first);
            && (Rejection(setting, raw).None? && again.gateAt - first.gateAt <= Window(raw) ==>
                  OutcomeOf(setting, w', raw, again) == Ignored)
            && (Rejection(setting, raw).Some? ==> w'.dup == w.dup)
  {
    KeysByType(setting, raw);
    if Rejection(setting, raw).None? {
      WindowByType(raw);
      var log, log' := w.dup[CacheOf(raw)], Handle(setting, w, drift, raw, first).dup[CacheOf(raw)];
      assert log'[|log|].key == KeyOf(setting, raw).value && log'[|log|].at == first.gateAt;
    }
  }

  /** And that time is exact: a repeat that is fresh, of an observation made only once before, is ignored within
      it and exported after it. */
  lemma RepeatWindow(setting: Setting, w: World, drift: i64, raw: Raw, first: Readings, again: Readings)
    requires setting.wallclock.Valid() && Rejection(setting, raw).None? && CacheOf(raw) in w.dup
    requires forall u :: u in w.dup[CacheOf(raw)] ==> u.key != KeyText(setting, raw)
    requires var w' := Handle(setting, w, drift, raw, first);
             Decides(setting.wallclock, raw, SlotBefore(w', raw, again.placedAt), again.ageAt, Exported)
    ensures OutcomeOf(setting, Handle(setting, w, drift, raw, first), raw, again)
            == if again.gateAt - first.gateAt <= Window(raw) then Ignored else Exported
  {
    var w' := Handle(setting, w, drift, raw, first);
    if again.gateAt - first.gateAt <= Window(raw) {
      RepeatIsIgnored(setting, w, drift, raw, first, again);
    } else {
      HandledByType(setting, w, drift, raw, first);
      EndByType(setting, w', raw, again);
      var log, log' := w.dup[CacheOf(raw)], w'.dup[CacheOf(raw)];
      assert !Seen(log', KeyText(setting, raw), Window(raw), again.gateAt);
      DecidesOne(setting.wallclock, raw, SlotBefore(w', raw, again.placedAt), again.ageAt, Exported,
                 OutcomeOf(setting, w', raw, again));
    }
  }
}

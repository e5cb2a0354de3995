/** The event pipeline as a transition system: any number of HandleRawEvent calls in flight, each
    advancing by one atomic step at a time, among clock ticks, evictions, drift stores and reports. */
module Machine {
  import opened Base
  import opened Ttl
  import opened Slots
  import opened Chain
  import opened Events
  import Race = SummaryRace

  /** Where a call stands. Each name is what it has just done. */
  datatype Pc =
    | Entered      // called
    | Metered      // drift loaded, client metadata allocated
    | Placed       // slot cache consulted
    | Gated        // enums valid, key new to its duplicate cache
    | Admitted     // age checked
    | Decorated    // timing written to the client metadata, event built
    | Counted      // exported counter bumped
    | Loaded       // topic count loaded
    | Delivering   // topic count stored, going through the sinks
    | Finished

  /** One HandleRawEvent call: its locals, the clock readings it made, and, as history, how many
      recordings and gate uses preceded its own. */
  datatype Call = Call(raw: Raw, pc: Pc, outcome: Option<Outcome>, drift: i64, slot: u64, delivered: nat,
                       placedAt: Time, gateAt: Time, ageAt: Time, placement: nat, arrival: nat)

  /** A call's client metadata object; calls never share one, so it is named by its call. */
  datatype Meta = Meta(clockDrift: u64, timing: Option<BlockTiming>)

  /** A decorated event; its metadata is the object named `call`. */
  datatype Event = Event(call: nat, name: string, raw: Raw, dateTime: int)

  /** One GetOrSet, in order. */
  datatype Gate = Gate(call: nat, passed: bool)

  datatype State = State(
    now: Time, drift: i64,
    dup: Store<DupKey, Time>, slots: Store<string, u64>,
    calls: map<nat, Call>, metas: map<nat, Meta>, sinks: seq<seq<Event>>, counters: Race.Counters,
    // History: the gate uses and who made them, the slot recordings and who made them.
    uses: seq<Use<DupKey, Time>>, gates: seq<Gate>, recordings: SlotLog, recorders: seq<nat>)

  datatype Action =
    | Tick(to: Time)
    | StoreDrift(drift: i64)
    | EvictKey(key: DupKey)
    | EvictRoot(root: string)
    | Print
    | Enter(id: nat, raw: Raw)
    | Advance(id: nat)

  function Init(sinks: nat, start: Time): State {
    State(start, 0, map[], map[], map[], map[], seq(sinks, _ => []), Race.FRESH, [], [], [], [])
  }

  function NewCall(raw: Raw): Call { Call(raw, Entered, None, 0, 0, 0, 0, 0, 0, 0, 0) }

  function TtlOf(k: DupKey): int { CacheTtl(k.cache) }

  function KeyFor(setting: Setting, raw: Raw): Option<DupKey> {
    match KeyOf(setting, raw)
    case Err(_) => None
    case Ok(key) => Some(DupKey(CacheOf(raw), key))
  }

  function EventFor(id: nat, c: Call): Event
    requires c.raw.Parsed()
  {
    Event(id, Topic(c.raw), c.raw, UnixMilli(c.raw.timestampMs) + c.drift)
  }

  function Update(s: State, id: nat, c: Call): State { s.(calls := s.calls[id := c]) }

  function MeterStep(s: State, id: nat, c: Call): State {
    s.(calls := s.calls[id := c.(pc := Metered, drift := s.drift)],
       metas := s.metas[id := Meta(ClockDriftMillis(s.drift), None)])
  }

  /** Resolve's answer is kept by the two partial types only; the other feeding types just record. */
  function PlacedCall(s: State, c: Call): Call {
    c.(pc := Placed, placedAt := s.now, placement := |s.recordings|,
       slot := if c.raw.UsesResolvedSlot() then ResolveSlot(s.slots, c.raw.blockRoot, c.raw.slot, s.now)
               else if c.raw.Parsed() then c.raw.slot else 0)
  }

  function PlaceStep(s: State, id: nat, c: Call): State {
    if c.raw.Feeds() && Records(c.raw.blockRoot, c.raw.slot) then
      s.(calls := s.calls[id := PlacedCall(s, c)],
         slots := ResolveStore(s.slots, c.raw.blockRoot, c.raw.slot, s.now),
         recordings := s.recordings + [Use(c.raw.blockRoot, c.raw.slot, s.now)],
         recorders := s.recorders + [id])
    else Update(s, id, PlacedCall(s, c))
  }

  /** What placing can touch. */
  lemma PlaceFrame(s: State, id: nat, c: Call)
    ensures var s' := PlaceStep(s, id, c);
            && s'.calls == s.calls[id := PlacedCall(s, c)]
            && s'.metas == s.metas && s'.dup == s.dup && s'.sinks == s.sinks
            && s'.now == s.now && s'.drift == s.drift
            && s'.slots == if c.raw.Feeds() then ResolveStore(s.slots, c.raw.blockRoot, c.raw.slot, s.now) else s.slots
  {
  }

  /** Enum and hash errors end the call before the cache is touched; a live key ends it after. */
  function GatedCall(setting: Setting, s: State, c: Call): Call {
    var c' := c.(gateAt := s.now, ageAt := s.now);
    match KeyOf(setting, c.raw)
    case Err(e) => c'.(pc := Finished, outcome := Some(Failed(e)))
    case Ok(text) =>
      if Live(s.dup, DupKey(CacheOf(c.raw), text), s.now) then
        c'.(pc := Finished, outcome := Some(Ignored), arrival := |s.uses|)
      else c'.(pc := Gated, arrival := |s.uses|)
  }

  function GateStep(setting: Setting, s: State, id: nat, c: Call): State {
    match KeyFor(setting, c.raw)
    case None => Update(s, id, GatedCall(setting, s, c))
    case Some(key) =>
      var stamp := UnixMilli(c.raw.timestampMs);
      s.(calls := s.calls[id := GatedCall(setting, s, c)],
         dup := GetOrSet(s.dup, key, stamp, TtlOf(key), s.now),
         uses := s.uses + [Use(key, Settled(s.dup, key, stamp, s.now), s.now)],
         gates := s.gates + [Gate(id, !Live(s.dup, key, s.now))])
  }

  function AgeStep(setting: Setting, s: State, id: nat, c: Call): State
    requires setting.wallclock.Valid()
  {
    var outcome := AgeCheck(setting, c.raw, c.slot, s.now);
    Update(s, id, c.(pc := if outcome.Exported? then Admitted else Finished, ageAt := s.now, outcome := Some(outcome)))
  }

  // The steps after the decision to export, field by field.

  function ExportingCall(sinks: nat, c: Call): Call {
    match c.pc
    case Admitted => c.(pc := Decorated)
    case Decorated => c.(pc := Counted)
    case Counted => c.(pc := Loaded)
    case Loaded => c.(pc := Delivering)
    case Delivering => if c.delivered < sinks then c.(delivered := c.delivered + 1) else c.(pc := Finished)
    case _ => c
  }

  /** Decorating writes the timing, if the clock gives one, to the call's own metadata. */
  function ExportingMetas(setting: Setting, metas: map<nat, Meta>, id: nat, c: Call): map<nat, Meta>
    requires setting.wallclock.Valid() && c.raw.Parsed()
  {
    if c.pc == Admitted && id in metas then
      match TimingOf(setting, c.raw, c.slot)
      case None => metas
      case Some(t) => metas[id := metas[id].(timing := Some(t))]
    else metas
  }

  /** One exported event, then one unit for its topic in two halves. */
  function ExportingCounters(counters: Race.Counters, id: nat, c: Call): Race.Counters
    requires c.raw.Parsed()
  {
    match c.pc
    case Decorated => Race.AddExportedStep(counters)
    case Counted => Race.LoadTopicStep(counters, id, Topic(c.raw))
    case Loaded => Race.StoreTopicStep(counters, id)
    case _ => counters
  }

  /** Offer the event to the next sink; whatever the sink answers, the loop goes on. */
  function ExportingSinks(sinks: seq<seq<Event>>, id: nat, c: Call): seq<seq<Event>>
    requires c.raw.Parsed()
  {
    if c.pc == Delivering && c.delivered < |sinks| then
      sinks[c.delivered := sinks[c.delivered] + [EventFor(id, c)]]
    else sinks
  }

  function ExportStep(setting: Setting, s: State, id: nat, c: Call): State
    requires setting.wallclock.Valid() && c.raw.Parsed()
  {
    s.(calls := s.calls[id := ExportingCall(|s.sinks|, c)],
       metas := ExportingMetas(setting, s.metas, id, c),
       counters := ExportingCounters(s.counters, id, c),
       sinks := ExportingSinks(s.sinks, id, c))
  }

  /** The next atomic step of a call. */
  function AdvanceStep(setting: Setting, s: State, id: nat): State
    requires setting.wallclock.Valid()
  {
    if id !in s.calls then s
    else
      var c := s.calls[id];
      match c.pc
      case Entered => MeterStep(s, id, c)
      case Metered => PlaceStep(s, id, c)
      case Placed => GateStep(setting, s, id, c)
      case Gated => AgeStep(setting, s, id, c)
      case _ => if c.raw.Parsed() then ExportStep(setting, s, id, c) else s
  }

  /** An action that is not possible in a state leaves it unchanged: the clock does not go back, a
      call is entered once, and only expired entries are evicted. */
  ghost function Apply(setting: Setting, s: State, a: Action): State
    requires setting.wallclock.Valid()
  {
    match a
    case Tick(to) => if to < s.now then s else s.(now := to)
    case StoreDrift(drift) => s.(drift := drift)
    case EvictKey(key) => s.(dup := Evict(s.dup, key, s.now))
    case EvictRoot(root) => s.(slots := Evict(s.slots, root, s.now))
    case Print => s.(counters := Race.PrinterStep(s.counters))
    case Enter(id, raw) => if id in s.calls then s else Update(s, id, NewCall(raw))
    case Advance(id) => AdvanceStep(setting, s, id)
  }

  ghost function Run(setting: Setting, s: State, actions: seq<Action>): State
    requires setting.wallclock.Valid()
    decreases |actions|
  {
    if actions == [] then s
    else Apply(setting, Run(setting, s, actions[..|actions| - 1]), actions[|actions| - 1])
  }

  lemma {:induction false} RunConcat(setting: Setting, s: State, a: seq<Action>, b: seq<Action>)
    requires setting.wallclock.Valid()
    ensures Run(setting, s, a + b) == Run(setting, Run(setting, s, a), b)
  {
    if b == [] {
      assert a + b == a;
    } else {
      assert (a + b)[..|a + b| - 1] == a + b[..|b| - 1];
      RunConcat(setting, s, a, b[..|b| - 1]);
    }
  }
}

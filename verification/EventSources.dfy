/** The event objects: each type's own gate over its duplicate cache, and its decoration of the client
    metadata it was given. */
module EventSources {
  import opened Base
  import opened Ttl
  import opened Slots
  import opened Chain
  import opened Keys
  import opened Events
  import opened Promises
  import opened Sequential

  /** The client metadata of one exported event; only decorating writes it. */
  class ClientMeta {
    const clockDrift: u64
    var additionalData: Option<BlockTiming>

    constructor (clockDrift: u64)
      ensures this.clockDrift == clockDrift && additionalData == None
    {
      this.clockDrift := clockDrift;
      additionalData := None;
    }
  }

  datatype DecoratedEvent = DecoratedEvent(name: string, raw: Raw, dateTime: int, client: ClientMeta)

  /** The (ignore, error) pair of ShouldIgnore as one outcome. */
  function Decision(ignore: bool, err: Option<Error>): Outcome {
    match err case Some(e) => Failed(e) case None => if ignore then Ignored else Exported
  }

  /** The contract every gate meets. An event that is turned away fails and leaves the history of its cache
      alone. Any other makes one use of its key in that history; it is ignored if the history showed one in the
      time it is remembered, and otherwise comes to what its type, its slot and the clock decide. */
  ghost predicate Gated(setting: Setting, raw: Raw, slot: u64, log: GateLog, log': GateLog, gateAt: Time, ageAt: Time,
                        outcome: Outcome)
    requires setting.wallclock.Valid() && raw.Parsed()
  {
    match Rejection(setting, raw)
    case Some(e) => outcome == Failed(e) && log' == log
    case None =>
      var key, window := KeyText(setting, raw), Window(raw);
      && log' == log + [NextUse(log, key, raw.timestampMs * 1_000_000, window, gateAt)]
      && if Seen(log, key, window, gateAt) then outcome == Ignored
         else Decides(setting.wallclock, raw, slot, ageAt, outcome)
  }

  /** Read off the whole set of histories, the contract is the sequential model's decision and update. */
  lemma GatedIsJudged(setting: Setting, raw: Raw, slot: u64, was: map<CacheId, GateLog>, log': GateLog,
                      gateAt: Time, ageAt: Time, outcome: Outcome)
    requires setting.wallclock.Valid() && raw.Parsed() && CacheOf(raw) in was
    requires Gated(setting, raw, slot, was[CacheOf(raw)], log', gateAt, ageAt, outcome)
    ensures was[CacheOf(raw) := log'] == DupAfter(setting, was, raw, gateAt)
    ensures outcome == Judge(setting, was, raw, slot, gateAt, ageAt)
  {
    KeysByType(setting, raw);
    WindowByType(raw);
    AgeByType(setting, raw, slot, ageAt);
    hide KeyOf, Rejection, AgeCheck, CacheOf;
  }

  /** What decorating an event of that slot writes: its timing from genesis on, and nothing before. */
  ghost predicate DecoratedWith(clock: Wallclock, raw: Raw, slot: u64, was: Option<BlockTiming>,
                                now: Option<BlockTiming>)
    requires clock.Valid() && !raw.Malformed? && !raw.Unsupported?
  {
    if Starts(clock, 0) <= raw.timestampMs * 1_000_000 then TimedAs(clock, raw, slot, now) else now == was
  }

  /** The error for a value that is not one of those allowed. */
  method ValidateEnum(value: string, allowed: seq<string>, err: Error) returns (r: Option<Error>)
    ensures r == if value in allowed then None else Some(err)
  {
    if value in allowed {
      return None;
    }
    return Some(err);
  }

  /** The gate on a known block slot, shared by the block events. */
  method IsStaleSlot(wallclock: Wallclock, slot: u64, now: Time) returns (stale: bool, err: Option<Error>)
    requires wallclock.Valid()
    ensures slot == 0 ==> !stale && err == None
    ensures slot != 0 ==> err == if wallclock.SlotAt(now).None? then Some(BeforeGenesis) else None
    ensures slot != 0 && wallclock.SlotAt(now).Some? ==>
              (stale <==> slot + MAX_SLOT_AGE < wallclock.SlotAt(now).value)
  {
    if slot == 0 {
      return false, None;
    }
    var current := wallclock.SlotAt(now);
    if current.None? {
      return true, Some(BeforeGenesis);
    }
    TooOldIffBehind(current.value, slot);
    return current.value >= MAX_SLOT_AGE && slot < Sub64(current.value, MAX_SLOT_AGE), None;
  }

  /** The test-and-record common to all types. */
  method TestKey(cache: TtlCache<Time>, key: string, raw: Raw, now: Time) returns (retrieved: bool)
    requires raw.Parsed() && cache.Valid() && cache.clock <= now && cache.ttl == Window(raw)
    modifies cache
    ensures cache.Valid() && cache.clock == now
    ensures retrieved <==> Seen(old(cache.log), key, cache.ttl, now)
    ensures cache.log == old(cache.log) + [NextUse(old(cache.log), key, UnixMilli(raw.timestampMs), cache.ttl, now)]
  {
    var item: Time;
    retrieved, item := cache.GetOrSet(key, UnixMilli(raw.timestampMs), now);
  }

  /** A beacon block and the other gossip types: hash dedup, then the age cutoff written inline. */
  class GossipEvent {
    const setting: Setting
    const raw: Raw
    const cache: TtlCache<Time>
    const clientMeta: ClientMeta
    const clockDrift: i64

    ghost predicate Valid()
      reads cache
    {
      raw.Gossip? && setting.wallclock.Valid() && cache.Valid() && cache.ttl == Window(raw)
    }

    constructor (setting: Setting, raw: Raw, cache: TtlCache<Time>, clientMeta: ClientMeta, clockDrift: i64)
      ensures this.setting == setting && this.raw == raw && this.cache == cache
      ensures this.clientMeta == clientMeta && this.clockDrift == clockDrift
    {
      this.setting, this.raw, this.cache := setting, raw, cache;
      this.clientMeta, this.clockDrift := clientMeta, clockDrift;
    }

    method ShouldIgnore(gateAt: Time, ageAt: Time) returns (ignore: bool, err: Option<Error>)
      requires Valid() && cache.clock <= gateAt <= ageAt
      modifies cache
      ensures Valid() && cache.clock <= gateAt
      ensures Gated(setting, raw, raw.slot, old(cache.log), cache.log, gateAt, ageAt, Decision(ignore, err))
    {
      var hash := setting.hash(raw);
      if hash.None? {
        return true, Some(HashFailure);
      }
      var retrieved := TestKey(cache, Decimal(hash.value), raw, gateAt);
      if retrieved {
        return true, None;
      }
      var current := setting.wallclock.SlotAt(ageAt);
      if current.None? {
        return true, Some(BeforeGenesis);
      }
      if current.value >= MAX_SLOT_AGE {
        var slotLimit := Sub64(current.value, MAX_SLOT_AGE);
        if raw.slot < slotLimit {
          return true, None;
        }
      }
      return false, None;
    }

    method Decorate() returns (event: DecoratedEvent)
      requires setting.wallclock.Valid() && raw.Gossip?
      modifies clientMeta
      ensures event == DecoratedEvent(EventName(raw), raw, raw.timestampMs * 1_000_000 + clockDrift, clientMeta)
      ensures DecoratedWith(setting.wallclock, raw, raw.slot, old(clientMeta.additionalData), clientMeta.additionalData)
      ensures var t := TimingOf(setting, raw, raw.slot);
              clientMeta.additionalData == if t.Some? then t else old(clientMeta.additionalData)
    {
      NamesByType(raw);
      TimingByType(setting, raw, raw.slot);
      event := DecoratedEvent(Topic(raw), raw, UnixMilli(raw.timestampMs) + clockDrift, clientMeta);
      var timing := setting.wallclock.Timing(UnixMilli(raw.timestampMs), raw.slot, true);
      if timing.Some? {
        clientMeta.additionalData := timing;
      }
    }
  }

  /** Proposer preferences: dedup only. */
  class ProposerPreferencesEvent {
    const setting: Setting
    const raw: Raw
    const cache: TtlCache<Time>
    const clientMeta: ClientMeta
    const clockDrift: i64

    ghost predicate Valid()
      reads cache
    {
      raw.ProposerPreferences? && setting.wallclock.Valid() && cache.Valid() && cache.ttl == Window(raw)
    }

    constructor (setting: Setting, raw: Raw, cache: TtlCache<Time>, clientMeta: ClientMeta, clockDrift: i64)
      ensures this.setting == setting && this.raw == raw && this.cache == cache
      ensures this.clientMeta == clientMeta && this.clockDrift == clockDrift
    {
      this.setting, this.raw, this.cache := setting, raw, cache;
      this.clientMeta, this.clockDrift := clientMeta, clockDrift;
    }

    method ShouldIgnore(gateAt: Time, ghost ageAt: Time) returns (ignore: bool, err: Option<Error>)
      requires Valid() && cache.clock <= gateAt
      modifies cache
      ensures Valid() && cache.clock <= gateAt
      ensures Gated(setting, raw, raw.slot, old(cache.log), cache.log, gateAt, ageAt, Decision(ignore, err))
    {
      var hash := setting.hash(raw);
      if hash.None? {
        return true, Some(HashFailure);
      }
      var retrieved := TestKey(cache, Decimal(hash.value), raw, gateAt);
      return retrieved, None;
    }

    method Decorate() returns (event: DecoratedEvent)
      requires setting.wallclock.Valid() && raw.ProposerPreferences?
      modifies clientMeta
      ensures event == DecoratedEvent(EventName(raw), raw, raw.timestampMs * 1_000_000 + clockDrift, clientMeta)
      ensures DecoratedWith(setting.wallclock, raw, raw.slot, old(clientMeta.additionalData), clientMeta.additionalData)
      ensures var t := TimingOf(setting, raw, raw.slot);
              clientMeta.additionalData == if t.Some? then t else old(clientMeta.additionalData)
    {
      NamesByType(raw);
      TimingByType(setting, raw, raw.slot);
      event := DecoratedEvent(Topic(raw), raw, UnixMilli(raw.timestampMs) + clockDrift, clientMeta);
      var timing := setting.wallclock.Timing(UnixMilli(raw.timestampMs), raw.slot, true);
      if timing.Some? {
        clientMeta.additionalData := timing;
      }
    }
  }

  /** The three block events handled through exportEvent. Building one consults the slot cache. */
  class BlockEvent {
    const setting: Setting
    const raw: Raw
    const cache: TtlCache<Time>
    const clientMeta: ClientMeta
    const clockDrift: i64
    const slot: u64

    ghost predicate Valid()
      reads cache
    {
      BlockType(raw) && setting.wallclock.Valid() && cache.Valid() && cache.ttl == Window(raw)
    }

    /** A part or an outcome keeps the resolved slot; a completion records its own and keeps that. */
    constructor (setting: Setting, raw: Raw, cache: TtlCache<Time>, blockSlots: BlockSlotCache,
                 clientMeta: ClientMeta, clockDrift: i64, placedAt: Time)
      requires BlockType(raw) && blockSlots.Valid() && blockSlots.cache.clock <= placedAt
      modifies blockSlots.cache
      ensures this.setting == setting && this.raw == raw && this.cache == cache
      ensures this.clientMeta == clientMeta && this.clockDrift == clockDrift
      ensures blockSlots.Valid() && blockSlots.cache.clock <= placedAt
      ensures raw.DataColumnCompleted? ==> slot == raw.slot
      ensures !raw.DataColumnCompleted? ==>
                slot == Resolved(old(blockSlots.cache.log), raw.blockRoot, raw.slot, placedAt)
      ensures blockSlots.cache.log == if raw.blockRoot != "" && raw.slot != 0
                                      then old(blockSlots.cache.log) + [Use(raw.blockRoot, raw.slot, placedAt)]
                                      else old(blockSlots.cache.log)
    {
      this.setting, this.raw, this.cache := setting, raw, cache;
      this.clientMeta, this.clockDrift := clientMeta, clockDrift;
      var resolved := blockSlots.Resolve(raw.blockRoot, raw.slot, placedAt);
      slot := if raw.DataColumnCompleted? then raw.slot else resolved;
    }

    /** The enum checks of each type, in order. */
    method Validate() returns (err: Option<Error>)
      requires BlockType(raw)
      ensures err == FieldError(raw)
    {
      match raw
      case PartialDataColumn(_, _, _, direction, capturePoint, _) =>
        err := ValidateEnum(direction, ["RECV", "SEND", "DROP"], InvalidPartialDirection);
        if err.None? {
          err := ValidateEnum(capturePoint, ["WIRE", "APP"], InvalidPartialCapturePoint);
        }
      case DataColumnCompleted(_, _, _, _, completedVia, _) =>
        err := ValidateEnum(completedVia, ["FULL_GOSSIP", "PARTIAL_GOSSIP", "EL", "RECONSTRUCTION", "UNKNOWN"],
                            InvalidCompletedVia);
      case PartialOutcome(_, _, _, stage, outcome, _) =>
        err := ValidateEnum(stage, ["DECODE", "HEADER", "CELLS"], InvalidPartialStage);
        if err.None? {
          err := ValidateEnum(outcome, ["ACCEPT", "IGNORE", "REJECT"], InvalidPartialOutcome);
        }
    }

    method ShouldIgnore(gateAt: Time, ageAt: Time) returns (ignore: bool, err: Option<Error>)
      requires Valid() && cache.clock <= gateAt <= ageAt
      modifies cache
      ensures Valid() && cache.clock <= gateAt
      ensures Gated(setting, raw, slot, old(cache.log), cache.log, gateAt, ageAt, Decision(ignore, err))
    {
      var invalid := Validate();
      if invalid.Some? {
        return true, invalid;
      }
      var key: string;
      if raw.DataColumnCompleted? {
        key := CompletionKey(raw.blockRoot, raw.columnIndex);
      } else {
        var hash := setting.hash(raw);
        if hash.None? {
          return true, Some(HashFailure);
        }
        key := Decimal(hash.value);
      }
      var retrieved := TestKey(cache, key, raw, gateAt);
      if retrieved {
        return true, None;
      }
      ignore, err := IsStaleSlot(setting.wallclock, slot, ageAt);
      if slot != 0 && setting.wallclock.SlotAt(ageAt).Some? {
        TooOldIffBehind(setting.wallclock.SlotAt(ageAt).value, slot);
      }
    }

    method Decorate() returns (event: DecoratedEvent)
      requires setting.wallclock.Valid() && BlockType(raw)
      modifies clientMeta
      ensures event == DecoratedEvent(EventName(raw), raw, raw.timestampMs * 1_000_000 + clockDrift, clientMeta)
      ensures DecoratedWith(setting.wallclock, raw, slot, old(clientMeta.additionalData), clientMeta.additionalData)
      ensures var t := TimingOf(setting, raw, slot);
              clientMeta.additionalData == if t.Some? then t else old(clientMeta.additionalData)
    {
      NamesByType(raw);
      TimingByType(setting, raw, slot);
      event := DecoratedEvent(Topic(raw), raw, UnixMilli(raw.timestampMs) + clockDrift, clientMeta);
      var timing := NewBlockTiming(setting.wallclock, UnixMilli(raw.timestampMs), slot);
      if timing.None? {
        return;
      }
      if raw.PartialOutcome? {
        clientMeta.additionalData := Some(timing.value.(slotStartDiff := None));
      } else {
        clientMeta.additionalData := timing;
      }
    }
  }

  /** What a raw event of any type becomes: something that can be filtered and decorated for export. */
  datatype Source = FromGossip(gossip: GossipEvent) | FromPreferences(preferences: ProposerPreferencesEvent)
                  | FromBlock(block: BlockEvent)
  {
    function Setting(): Setting {
      match this
      case FromGossip(e) => e.setting case FromPreferences(e) => e.setting case FromBlock(e) => e.setting
    }

    function Event(): Raw {
      match this case FromGossip(e) => e.raw case FromPreferences(e) => e.raw case FromBlock(e) => e.raw
    }

    function Cache(): TtlCache<Time> {
      match this case FromGossip(e) => e.cache case FromPreferences(e) => e.cache case FromBlock(e) => e.cache
    }

    function Meta(): ClientMeta {
      match this
      case FromGossip(e) => e.clientMeta case FromPreferences(e) => e.clientMeta case FromBlock(e) => e.clientMeta
    }

    function Drift(): i64 {
      match this
      case FromGossip(e) => e.clockDrift case FromPreferences(e) => e.clockDrift case FromBlock(e) => e.clockDrift
    }

    function Slot(): u64
      requires Event().Parsed()
    {
      match this case FromGossip(e) => e.raw.slot case FromPreferences(e) => e.raw.slot case FromBlock(e) => e.slot
    }

    /** The raw event is of the type that made this source. */
    predicate Typed() {
      match this
      case FromGossip(e) => e.raw.Gossip?
      case FromPreferences(e) => e.raw.ProposerPreferences?
      case FromBlock(e) => BlockType(e.raw)
    }

    method ShouldIgnore(gateAt: Time, ageAt: Time) returns (ignore: bool, err: Option<Error>)
      requires Typed() && Setting().wallclock.Valid() && Cache().Valid() && Cache().ttl == Window(Event())
      requires Cache().clock <= gateAt <= ageAt
      modifies Cache()
      ensures Cache().Valid() && Cache().clock <= gateAt
      ensures Gated(Setting(), Event(), Slot(), old(Cache().log), Cache().log, gateAt, ageAt, Decision(ignore, err))
    {
      match this
      case FromGossip(e) => ignore, err := e.ShouldIgnore(gateAt, ageAt);
      case FromPreferences(e) => ignore, err := e.ShouldIgnore(gateAt, ageAt);
      case FromBlock(e) => ignore, err := e.ShouldIgnore(gateAt, ageAt);
    }

    method Decorate() returns (event: DecoratedEvent)
      requires Typed() && Setting().wallclock.Valid()
      modifies Meta()
      ensures event == DecoratedEvent(EventName(Event()), Event(), Event().timestampMs * 1_000_000 + Drift(), Meta())
      ensures DecoratedWith(Setting().wallclock, Event(), Slot(), old(Meta().additionalData), Meta().additionalData)
      ensures var t := TimingOf(Setting(), Event(), Slot());
              Meta().additionalData == if t.Some? then t else old(Meta().additionalData)
    {
      match this
      case FromGossip(e) => event := e.Decorate();
      case FromPreferences(e) => event := e.Decorate();
      case FromBlock(e) => event := e.Decorate();
    }
  }
}

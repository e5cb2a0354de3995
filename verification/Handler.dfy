/** The handler: routing, export to every sink, the summary, and the loop over a batch. */
module Handler {
  import opened Base
  import opened Ttl
  import opened Slots
  import opened Chain
  import opened Events
  import opened Promises
  import opened Summary
  import opened Sequential
  import opened EventSources

  ghost function Tag(id: CacheId): nat {
    match id
    case BeaconBlocks => 0
    case AggregateAndProofs => 1
    case Attestations => 2
    case BlobSidecars => 3
    case DataColumnSidecars => 4
    case ExecutionPayloadEnvelopes => 5
    case ExecutionPayloadBids => 6
    case PayloadAttestationMessages => 7
    case ProposerPreferencesCache => 8
    case PartialDataColumns => 9
    case PartialDataColumnOutcomes => 10
    case DataColumnsCompleted => 11
  }

  /** The cache serves as duplicate cache `id`. */
  ghost predicate Ready(c: TtlCache<Time>, id: CacheId, clock: int)
    reads c
  {
    c.Valid() && c.ttl == CacheTtl(id) && c.clock <= clock && c.tag == Tag(id)
  }

  /** And has not been used. */
  ghost predicate IsNew(c: TtlCache<Time>, id: CacheId, clock: int)
    reads c
  {
    Ready(c, id, clock) && c.log == []
  }

  method NewTtlCache(id: CacheId, ghost clock: int) returns (c: TtlCache<Time>)
    ensures fresh(c) && IsNew(c, id, clock)
  {
    c := new TtlCache<Time>(CacheTtl(id), clock, Tag(id));
  }

  /** The duplicate caches, each with its own TTL. */
  class DuplicateCache {
    const gossipsubBeaconBlock: TtlCache<Time>
    const gossipsubAggregateAndProof: TtlCache<Time>
    const gossipsubAttestation: TtlCache<Time>
    const gossipsubBlobSidecar: TtlCache<Time>
    const gossipsubDataColumnSidecar: TtlCache<Time>
    const gossipsubExecutionPayloadEnvelope: TtlCache<Time>
    const gossipsubExecutionPayloadBid: TtlCache<Time>
    const gossipsubPayloadAttestationMessage: TtlCache<Time>
    const gossipsubProposerPreferences: TtlCache<Time>
    const gossipsubPartialDataColumn: TtlCache<Time>
    const gossipsubPartialDataColumnOutcome: TtlCache<Time>
    const dataColumnCompleted: TtlCache<Time>

    ghost function Caches(): set<TtlCache<Time>> { set id: CacheId | true :: Cache(id) }

    function Cache(id: CacheId): TtlCache<Time> {
      match id
      case BeaconBlocks => gossipsubBeaconBlock
      case AggregateAndProofs => gossipsubAggregateAndProof
      case Attestations => gossipsubAttestation
      case BlobSidecars => gossipsubBlobSidecar
      case DataColumnSidecars => gossipsubDataColumnSidecar
      case ExecutionPayloadEnvelopes => gossipsubExecutionPayloadEnvelope
      case ExecutionPayloadBids => gossipsubExecutionPayloadBid
      case PayloadAttestationMessages => gossipsubPayloadAttestationMessage
      case ProposerPreferencesCache => gossipsubProposerPreferences
      case PartialDataColumns => gossipsubPartialDataColumn
      case PartialDataColumnOutcomes => gossipsubPartialDataColumnOutcome
      case DataColumnsCompleted => dataColumnCompleted
    }

    /** Every cache is in step with its own history; by their tags they are different objects. */
    ghost predicate Valid(clock: int)
      reads Caches()
    {
      forall id: CacheId :: Ready(Cache(id), id, clock)
    }

    ghost predicate Unused()
      reads Caches()
    {
      forall id: CacheId :: Cache(id).log == []
    }

    lemma NamedReady(clock: int)
      requires IsNew(gossipsubBeaconBlock, BeaconBlocks, clock)
      requires IsNew(gossipsubAggregateAndProof, AggregateAndProofs, clock)
      requires IsNew(gossipsubAttestation, Attestations, clock)
      requires IsNew(gossipsubBlobSidecar, BlobSidecars, clock)
      requires IsNew(gossipsubDataColumnSidecar, DataColumnSidecars, clock)
      requires IsNew(gossipsubExecutionPayloadEnvelope, ExecutionPayloadEnvelopes, clock)
      requires IsNew(gossipsubExecutionPayloadBid, ExecutionPayloadBids, clock)
      requires IsNew(gossipsubPayloadAttestationMessage, PayloadAttestationMessages, clock)
      requires IsNew(gossipsubProposerPreferences, ProposerPreferencesCache, clock)
      requires IsNew(gossipsubPartialDataColumn, PartialDataColumns, clock)
      requires IsNew(gossipsubPartialDataColumnOutcome, PartialDataColumnOutcomes, clock)
      requires IsNew(dataColumnCompleted, DataColumnsCompleted, clock)
      ensures Valid(clock) && Unused()
    {
    }

    lemma Separate(clock: int)
      requires Valid(clock)
      ensures forall id: CacheId, other: CacheId :: id != other ==> Cache(id) != Cache(other)
    {
    }

    /** Using one cache leaves the others, and so their histories, alone. */
    lemma OneUsed(id: CacheId, was: map<CacheId, GateLog>, clock: int, later: int)
      requires Ready(Cache(id), id, later) && clock <= later
      requires forall other: CacheId :: other != id ==> Ready(Cache(other), other, clock)
      requires forall other: CacheId :: other in was && (other != id ==> was[other] == Cache(other).log)
      ensures Valid(later) && Logs() == was[id := Cache(id).log]
    {
    }

    ghost function Logs(): map<CacheId, GateLog>
      reads Caches()
    {
      map id: CacheId | true :: Cache(id).log
    }

    constructor (ghost clock: int)
      ensures Valid(clock) && Unused()
    {
      var c0 := NewTtlCache(BeaconBlocks, clock);
      var c1 := NewTtlCache(AggregateAndProofs, clock);
      var c2 := NewTtlCache(Attestations, clock);
      var c3 := NewTtlCache(BlobSidecars, clock);
      var c4 := NewTtlCache(DataColumnSidecars, clock);
      var c5 := NewTtlCache(ExecutionPayloadEnvelopes, clock);
      var c6 := NewTtlCache(ExecutionPayloadBids, clock);
      var c7 := NewTtlCache(PayloadAttestationMessages, clock);
      var c8 := NewTtlCache(ProposerPreferencesCache, clock);
      var c9 := NewTtlCache(PartialDataColumns, clock);
      var c10 := NewTtlCache(PartialDataColumnOutcomes, clock);
      var c11 := NewTtlCache(DataColumnsCompleted, clock);
      gossipsubBeaconBlock, gossipsubAggregateAndProof, gossipsubAttestation, gossipsubBlobSidecar := c0, c1, c2, c3;
      gossipsubDataColumnSidecar, gossipsubExecutionPayloadEnvelope := c4, c5;
      gossipsubExecutionPayloadBid, gossipsubPayloadAttestationMessage := c6, c7;
      gossipsubProposerPreferences, gossipsubPartialDataColumn := c8, c9;
      gossipsubPartialDataColumnOutcome, dataColumnCompleted := c10, c11;
      new;
      NamedReady(clock);
    }
  }

  /** A sink takes every event offered to it, and may fail. */
  class Sink {
    var offered: seq<DecoratedEvent>

    constructor ()
      ensures offered == []
    {
      offered := [];
    }

    method HandleNewDecoratedEvent(event: DecoratedEvent) returns (failed: bool)
      modifies this
      ensures offered == old(offered) + [event]
    {
      offered := offered + [event];
      failed := *;
    }
  }

  function RecordFor(e: DecoratedEvent): Record
    reads e.client
  {
    Record(e.name, e.raw, e.dateTime, e.client.clockDrift, e.client.additionalData)
  }

  ghost predicate Distinct(sinks: seq<Sink>) {
    forall i, j :: 0 <= i < j < |sinks| ==> sinks[i] != sinks[j]
  }

  ghost predicate AllOffered(sinks: seq<Sink>, events: seq<DecoratedEvent>)
    reads sinks
  {
    forall s :: s in sinks ==> s.offered == events
  }

  /** The events still read, metadata included, as they did when they were exported. */
  ghost predicate Unchanged(events: seq<DecoratedEvent>, records: seq<Record>)
    reads set e | e in events :: e.client
  {
    |records| == |events| && forall i :: 0 <= i < |events| ==> RecordFor(events[i]) == records[i]
  }

  /** The loop over the sinks: each is offered the event, whatever the ones before it answered. */
  method OfferToAll(sinks: seq<Sink>, event: DecoratedEvent, ghost events: seq<DecoratedEvent>)
    requires Distinct(sinks) && AllOffered(sinks, events)
    modifies sinks
    ensures AllOffered(sinks, events + [event])
  {
    for i := 0 to |sinks|
      invariant forall j :: 0 <= j < i ==> sinks[j].offered == events + [event]
      invariant forall j :: i <= j < |sinks| ==> sinks[j].offered == events
    {
      var failed := sinks[i].HandleNewDecoratedEvent(event);
    }
  }

  function ErrorOf(outcome: Outcome): Option<Error> {
    match outcome case Failed(e) => Some(e) case _ => None
  }

  class Handler {
    const setting: Setting
    const duplicates: DuplicateCache
    const blockSlots: BlockSlotCache
    const summary: Summary
    const sinks: seq<Sink>
    var clockDrift: i64
    /** The latest clock reading, and the events exported so far with what was exported of them. */
    ghost var clock: int
    ghost var events: seq<DecoratedEvent>
    ghost var records: seq<Record>

    /** The caches are in step with their histories. */
    ghost predicate CachesValid()
      reads `clock, blockSlots, blockSlots.cache, duplicates.Caches()
    {
      && setting.wallclock.Valid()
      && duplicates.Valid(clock)
      && blockSlots.Valid() && blockSlots.cache.clock <= clock
    }

    /** Every sink has been offered the same events in the same order, and each of those still reads as
        it did when it was exported. */
    ghost predicate ExportsValid()
      reads `events, `records, summary, sinks, set e | e in events :: e.client
    {
      && summary.Valid()
      && Distinct(sinks)
      && AllOffered(sinks, events)
      && Unchanged(events, records)
    }

    /** The handler's state as the histories that determine everything it does. */
    ghost function Histories(): World
      reads `records, summary, blockSlots, blockSlots.cache, duplicates.Caches()
    {
      World(duplicates.Logs(), blockSlots.cache.log, records, summary.adds, summary.exported)
    }

    ghost predicate Unused()
      reads `records, summary, blockSlots, blockSlots.cache, duplicates.Caches()
    {
      duplicates.Unused() && blockSlots.cache.log == [] && records == [] && summary.adds == [] && summary.exported == 0
    }

    constructor (setting: Setting, sinks: seq<Sink>, ghost clock: int)
      requires setting.wallclock.Valid() && Distinct(sinks) && AllOffered(sinks, [])
      ensures CachesValid() && ExportsValid() && this.setting == setting && this.sinks == sinks && this.clock == clock
      ensures events == [] && Unused()
    {
      this.setting, this.sinks, this.clock := setting, sinks, clock;
      blockSlots := new BlockSlotCache(clock);
      summary := new Summary();
      duplicates := new DuplicateCache(clock);
      clockDrift, events, records := 0, [], [];
    }

    /** A new handler has no histories. */
    lemma BeginsEmpty()
      requires Unused()
      ensures Histories() == EMPTY
    {
    }

    /** The cron's store of a newly measured offset. */
    method StoreClockDrift(drift: i64)
      modifies `clockDrift
      ensures clockDrift == drift
    {
      clockDrift := drift;
    }

    /** Count the event, then offer it to every sink. */
    method HandleNewDecoratedEvent(event: DecoratedEvent)
      requires ExportsValid()
      modifies `events, `records, summary, sinks
      ensures ExportsValid() && events == old(events) + [event] && records == old(records) + [RecordFor(event)]
      ensures summary.adds == old(summary.adds) + [Add(event.name, 1)] && summary.exported == old(summary.exported) + 1
    {
      summary.AddEventsExported(1);
      summary.AddEventStreamEvents(event.name, 1);
      OfferToAll(sinks, event, events);
      events := events + [event];
      records := records + [RecordFor(event)];
    }

    /** The client metadata of a call in progress: nobody has been given it yet. */
    ghost predicate Unshared(meta: ClientMeta, drift: i64)
      reads `events, meta
    {
      && meta.clockDrift == ClockDriftMillis(drift) && meta.additionalData == None
      && forall e :: e in events ==> e.client != meta
    }

    /** The bookkeeping after a gate: one cache was used, as the histories say. */
    ghost method NoteGate(raw: Raw, slot: u64, was: map<CacheId, GateLog>, r: Readings, outcome: Outcome)
      requires raw.Parsed() && setting.wallclock.Valid() && clock <= r.ageAt
      requires Ready(duplicates.Cache(CacheOf(raw)), CacheOf(raw), r.ageAt)
      requires forall other: CacheId :: other != CacheOf(raw) ==> Ready(duplicates.Cache(other), other, clock)
      requires forall other: CacheId ::
                 other in was && (other != CacheOf(raw) ==> was[other] == duplicates.Cache(other).log)
      requires Gated(setting, raw, slot, was[CacheOf(raw)], duplicates.Cache(CacheOf(raw)).log,
                     r.gateAt, r.ageAt, outcome)
      requires blockSlots.Valid() && blockSlots.cache.clock <= clock
      modifies `clock
      ensures CachesValid() && clock == r.ageAt
      ensures duplicates.Logs() == DupAfter(setting, was, raw, r.gateAt)
      ensures outcome == Judge(setting, was, raw, slot, r.gateAt, r.ageAt)
    {
      hide Gated, Judge, DupAfter;
      duplicates.OneUsed(CacheOf(raw), was, clock, r.ageAt);
      GatedIsJudged(setting, raw, slot, was, duplicates.Cache(CacheOf(raw)).log, r.gateAt, r.ageAt, outcome);
      clock := r.ageAt;
    }

    method Gate(source: Source, r: Readings) returns (ignore: bool, err: Option<Error>)
      requires CachesValid() && source.Typed() && source.Setting() == setting
      requires source.Cache() == duplicates.Cache(CacheOf(source.Event())) && clock <= r.gateAt <= r.ageAt
      modifies `clock, source.Cache()
      ensures CachesValid() && clock == r.ageAt
      ensures duplicates.Logs() == DupAfter(setting, old(duplicates.Logs()), source.Event(), r.gateAt)
      ensures Decision(ignore, err)
              == Judge(setting, old(duplicates.Logs()), source.Event(), source.Slot(), r.gateAt, r.ageAt)
    {
      hide Gated, Judge, DupAfter;
      ghost var was := duplicates.Logs();
      duplicates.Separate(clock);
      assert Ready(source.Cache(), CacheOf(source.Event()), clock);
      WindowByType(source.Event());
      ignore, err := source.ShouldIgnore(r.gateAt, r.ageAt);
      NoteGate(source.Event(), source.Slot(), was, r, Decision(ignore, err));
    }

    method DecorateAndExport(source: Source)
      requires ExportsValid() && setting.wallclock.Valid() && source.Typed() && source.Setting() == setting
      requires Unshared(source.Meta(), source.Drift())
      modifies `events, `records, source.Meta(), summary, sinks
      ensures ExportsValid() && old(events) <= events
      ensures records == old(records) + [RecordOf(setting, source.Drift(), source.Event(), source.Slot())]
      ensures summary.adds == old(summary.adds) + [Add(Topic(source.Event()), 1)]
      ensures summary.exported == old(summary.exported) + 1
    {
      hide Topic, EventName, DecoratedWith, TimingOf;
      NamesByType(source.Event());
      var decorated := source.Decorate();
      assert ExportsValid();
      HandleNewDecoratedEvent(decorated);
    }

    /** Exporting leaves the caches as they are. */
    method ExportOnly(source: Source)
      requires CachesValid() && ExportsValid() && source.Typed() && source.Setting() == setting
      requires Unshared(source.Meta(), source.Drift())
      modifies `events, `records, source.Meta(), summary, sinks
      ensures CachesValid() && ExportsValid() && clock == old(clock) && old(events) <= events
      ensures Histories() == Settle(old(Histories()), source.Event(), Exported,
                                    RecordOf(setting, source.Drift(), source.Event(), source.Slot()))
    {
      hide Topic, RecordOf, ExportsValid, Ready;
      DecorateAndExport(source);
      assert unchanged(`clock);
      assert forall id: CacheId :: unchanged(duplicates.Cache(id));
      assert unchanged(blockSlots.cache);
    }

    /** Gating leaves what is exported as it is. */
    method GateOnly(source: Source, r: Readings) returns (ignore: bool, err: Option<Error>)
      requires CachesValid() && ExportsValid() && source.Typed() && source.Setting() == setting
      requires source.Cache() == duplicates.Cache(CacheOf(source.Event())) && Unshared(source.Meta(), source.Drift())
      requires clock <= r.gateAt <= r.ageAt
      modifies `clock, source.Cache()
      ensures CachesValid() && ExportsValid() && Unshared(source.Meta(), source.Drift()) && clock == r.ageAt
      ensures Histories() == old(Histories()).(dup := DupAfter(setting, old(Histories()).dup, source.Event(), r.gateAt))
      ensures Decision(ignore, err)
              == Judge(setting, old(Histories()).dup, source.Event(), source.Slot(), r.gateAt, r.ageAt)
    {
      ignore, err := Gate(source, r);
      assert unchanged(summary) && unchanged(sinks) && unchanged(source.Meta()) && unchanged(blockSlots.cache);
    }

    /** exportEvent, and each inline branch of the switch: gate, decorate, export. */
    method ExportEvent(source: Source, r: Readings) returns (err: Option<Error>)
      requires CachesValid() && ExportsValid() && source.Typed() && source.Setting() == setting
      requires source.Cache() == duplicates.Cache(CacheOf(source.Event())) && Unshared(source.Meta(), source.Drift())
      requires clock <= r.gateAt <= r.ageAt
      modifies `clock, `events, `records, source.Cache(), source.Meta(), summary, sinks
      ensures CachesValid() && ExportsValid() && clock == r.ageAt && old(events) <= events
      ensures Histories() == Finish(setting, old(Histories()), source.Drift(), source.Event(), source.Slot(), r)
      ensures err == ErrorOf(Judge(setting, old(Histories()).dup, source.Event(), source.Slot(), r.gateAt, r.ageAt))
    {
      var ignore: bool;
      ignore, err := GateOnly(source, r);
      if err.None? && !ignore {
        ExportOnly(source);
      }
    }

    /** Recording or resolving a slot leaves the duplicate caches as they are. */
    method Resolve(root: string, slot: u64, placedAt: Time) returns (resolved: u64)
      requires CachesValid() && clock <= placedAt
      modifies `clock, blockSlots.cache
      ensures CachesValid() && clock == placedAt && duplicates.Logs() == old(duplicates.Logs())
      ensures blockSlots.cache.log == Noted(old(blockSlots.cache.log), root, slot, placedAt)
    {
      resolved := blockSlots.Resolve(root, slot, placedAt);
      assert forall id: CacheId :: unchanged(duplicates.Cache(id));
      clock := placedAt;
    }

    /** The slot of a beacon block or a data column sidecar of either type, if it and the root are known, is
        recorded in the slot cache; that of other gossip is not. */
    method Feed(raw: Raw, placedAt: Time)
      requires CachesValid() && raw.Gossip? && clock <= placedAt
      modifies `clock, blockSlots.cache
      ensures CachesValid() && clock == placedAt && duplicates.Logs() == old(duplicates.Logs())
      ensures raw.kind.BeaconBlock? || raw.kind.DataColumnSidecar? || raw.kind.DataColumnSidecarGloas? ==>
                blockSlots.cache.log == if raw.blockRoot != "" && raw.slot != 0
                                        then old(blockSlots.cache.log) + [Use(raw.blockRoot, raw.slot, placedAt)]
                                        else old(blockSlots.cache.log)
      ensures !(raw.kind.BeaconBlock? || raw.kind.DataColumnSidecar? || raw.kind.DataColumnSidecarGloas?) ==>
                blockSlots.cache.log == old(blockSlots.cache.log)
    {
      if raw.kind.BeaconBlock? || raw.kind.DataColumnSidecar? || raw.kind.DataColumnSidecarGloas? {
        var _ := Resolve(raw.blockRoot, raw.slot, placedAt);
      } else {
        clock := placedAt;
      }
    }

    /** A source for the raw event, with the cache and the metadata given to it. */
    ghost predicate Made(source: Source, raw: Raw, cache: TtlCache<Time>, drift: i64, meta: ClientMeta) {
      && source.Typed() && source.Setting() == setting && source.Event() == raw
      && source.Cache() == cache && source.Drift() == drift && source.Meta() == meta
    }

    method NewGossip(raw: Raw, cache: TtlCache<Time>, drift: i64, meta: ClientMeta, placedAt: Time)
      returns (source: Source)
      requires CachesValid() && raw.Gossip? && clock <= placedAt
      modifies `clock, blockSlots.cache
      ensures CachesValid() && clock == placedAt && duplicates.Logs() == old(duplicates.Logs())
      ensures blockSlots.cache.log == SlotsAfter(old(blockSlots.cache.log), raw, placedAt)
      ensures Made(source, raw, cache, drift, meta) && source.Slot() == raw.slot
    {
      var event := new GossipEvent(setting, raw, cache, meta, drift);
      assert forall id: CacheId :: unchanged(duplicates.Cache(id));
      assert unchanged(blockSlots.cache);
      source := FromGossip(event);
      Feed(raw, placedAt);
    }

    method NewPreferences(raw: Raw, cache: TtlCache<Time>, drift: i64, meta: ClientMeta, placedAt: Time)
      returns (source: Source)
      requires CachesValid() && raw.ProposerPreferences? && clock <= placedAt
      modifies `clock
      ensures CachesValid() && clock == placedAt && duplicates.Logs() == old(duplicates.Logs())
      ensures Made(source, raw, cache, drift, meta) && source.Slot() == raw.slot
    {
      var event := new ProposerPreferencesEvent(setting, raw, cache, meta, drift);
      assert forall id: CacheId :: unchanged(duplicates.Cache(id));
      assert unchanged(blockSlots.cache);
      source := FromPreferences(event);
      clock := placedAt;
    }

    /** Building a block event consults the slot cache. */
    method NewBlock(raw: Raw, cache: TtlCache<Time>, drift: i64, meta: ClientMeta, placedAt: Time)
      returns (source: Source)
      requires CachesValid() && BlockType(raw) && clock <= placedAt
      modifies `clock, blockSlots.cache
      ensures CachesValid() && clock == placedAt && duplicates.Logs() == old(duplicates.Logs())
      ensures blockSlots.cache.log == SlotsAfter(old(blockSlots.cache.log), raw, placedAt)
      ensures Made(source, raw, cache, drift, meta)
      ensures source.Slot() == EffectiveSlot(old(blockSlots.cache.log), raw, placedAt)
    {
      var event := new BlockEvent(setting, raw, cache, blockSlots, meta, drift, placedAt);
      assert forall id: CacheId :: unchanged(duplicates.Cache(id));
      source := FromBlock(event);
      clock := placedAt;
    }

    /** The source a raw event becomes; the feeding types consult the slot cache on the way. */
    method NewSource(raw: Raw, drift: i64, meta: ClientMeta, placedAt: Time) returns (source: Source)
      requires CachesValid() && raw.Parsed() && clock <= placedAt
      modifies `clock, blockSlots.cache
      ensures CachesValid() && clock == placedAt && duplicates.Logs() == old(duplicates.Logs())
      ensures blockSlots.cache.log == SlotsAfter(old(blockSlots.cache.log), raw, placedAt)
      ensures Made(source, raw, duplicates.Cache(CacheOf(raw)), drift, meta)
      ensures source.Slot() == EffectiveSlot(old(blockSlots.cache.log), raw, placedAt)
    {
      var cache := duplicates.Cache(CacheOf(raw));
      if raw.Gossip? {
        source := NewGossip(raw, cache, drift, meta, placedAt);
      } else if raw.ProposerPreferences? {
        source := NewPreferences(raw, cache, drift, meta, placedAt);
      } else {
        source := NewBlock(raw, cache, drift, meta, placedAt);
      }
    }

    method HandleParsed(raw: Raw, drift: i64, meta: ClientMeta, r: Readings) returns (err: Option<Error>)
      requires CachesValid() && ExportsValid() && clock <= r.placedAt && r.Ordered()
      requires raw.Parsed() && Unshared(meta, drift)
      modifies `clock, `events, `records, blockSlots.cache, duplicates.Caches(), meta, summary, sinks
      ensures CachesValid() && ExportsValid() && clock <= r.ageAt && old(events) <= events
      ensures Histories() == Handle(setting, old(Histories()), drift, raw, r)
      ensures err == ErrorOf(OutcomeOf(setting, old(Histories()), raw, r))
    {
      var source := NewSource(raw, drift, meta, r.placedAt);
      assert unchanged(summary) && unchanged(sinks) && unchanged(meta);
      err := ExportEvent(source, r);
    }

    /** One raw event: fresh client metadata with the drift of the moment, then its type's path. */
    method HandleRawEvent(raw: Raw, r: Readings) returns (err: Option<Error>)
      requires CachesValid() && ExportsValid() && clock <= r.placedAt && r.Ordered()
      modifies `clock, `events, `records, blockSlots.cache, duplicates.Caches(), summary, sinks
      ensures CachesValid() && ExportsValid() && clock <= r.ageAt && old(events) <= events
      ensures Histories() == Handle(setting, old(Histories()), clockDrift, raw, r)
      ensures HandledAs(setting, old(Histories()), Histories(), clockDrift, raw, r,
                        OutcomeOf(setting, old(Histories()), raw, r))
      ensures err == ErrorOf(OutcomeOf(setting, old(Histories()), raw, r))
    {
      hide HandledAs, Handle, OutcomeOf;
      HandledByType(setting, Histories(), clockDrift, raw, r);
      var drift := clockDrift;
      var meta := new ClientMeta(ClockDriftMillis(drift));
      assert forall id: CacheId :: unchanged(duplicates.Cache(id));
      assert unchanged(blockSlots.cache) && unchanged(summary) && unchanged(this);
      assert CachesValid() && ExportsValid() && Histories() == old(Histories());
      if raw.Malformed? || raw.Unsupported? {
        UnparsedLeavesNoTrace(setting, Histories(), drift, raw, r);
        err := Some(if raw.Malformed? then ParseFailure else UnsupportedEventType);
      } else {
        err := HandleParsed(raw, drift, meta, r);
      }
    }
  }

  /** The FFI call's argument: absent or empty, not a JSON array, or the array's elements. */
  datatype BatchInput = Absent | NotAnArray | Batch(elements: seq<Element>)

  /** The loop over a parsed batch: an element's error is logged and the loop continues. */
  method HandleBatch(handler: Handler, elements: seq<Element>, readings: seq<Readings>)
    requires handler.CachesValid() && handler.ExportsValid() && InOrder(readings, handler.clock)
    requires |readings| == |elements|
    modifies handler`clock, handler`events, handler`records, handler.blockSlots.cache, handler.summary
    modifies handler.duplicates.Caches(), handler.sinks
    ensures handler.CachesValid() && handler.ExportsValid() && old(handler.events) <= handler.events
    ensures handler.Histories()
            == HandleAll(handler.setting, old(handler.Histories()), handler.clockDrift, elements, readings)
  {
    ghost var before := handler.Histories();
    for i := 0 to |elements|
      invariant handler.CachesValid() && handler.ExportsValid() && old(handler.events) <= handler.events
      invariant forall j :: i <= j < |readings| ==> handler.clock <= readings[j].placedAt
      invariant handler.Histories()
                == HandleAll(handler.setting, before, handler.clockDrift, elements[..i], readings[..i])
    {
      assert elements[..i + 1][..i] == elements[..i] && readings[..i + 1][..i] == readings[..i];
      match elements[i]
      case Unreadable =>
      case Item(raw) =>
        var err := handler.HandleRawEvent(raw, readings[i]);
    }
    assert elements[..|elements|] == elements && readings[..|readings|] == readings;
  }

  /** The FFI entry point: nothing is handled without a handler or an array of events. */
  method SendEventBatch(handler: Handler?, input: BatchInput, readings: seq<Readings>) returns (code: int)
    requires handler != null ==> handler.CachesValid() && handler.ExportsValid() && InOrder(readings, handler.clock)
    requires input.Batch? ==> |readings| == |input.elements|
    modifies if handler == null then {} else {handler, handler.blockSlots.cache, handler.summary}
    modifies if handler == null then {} else handler.duplicates.Caches()
    modifies if handler == null then [] else handler.sinks
    ensures code == if handler == null then -1 else if !input.Batch? then -2 else 0
    ensures handler != null ==>
              && handler.CachesValid() && handler.ExportsValid() && old(handler.events) <= handler.events
              && handler.clockDrift == old(handler.clockDrift)
              && handler.Histories()
                 == if input.Batch? then HandleAll(handler.setting, old(handler.Histories()), handler.clockDrift,
                                                   input.elements, readings)
                    else old(handler.Histories())
  {
    if handler == null {
      return -1;
    }
    if !input.Batch? {
      return -2;
    }
    HandleBatch(handler, input.elements, readings);
    return 0;
  }
}

/** What is promised of each event type, spelled out by constructor, literal and number, and that the
    definitions of Events keep it. Nothing here is defined through those definitions. */
module Promises {
  import opened Base
  import opened Chain
  import opened Events
  import opened Keys

  // ----- types and names -----

  predicate Sidecar(kind: GossipKind) { kind.DataColumnSidecar? || kind.DataColumnSidecarGloas? }

  /** Events of one type; the two data column sidecar types count as one. */
  predicate SameType(a: Raw, b: Raw) {
    || (a.Gossip? && b.Gossip? && (a.kind == b.kind || (Sidecar(a.kind) && Sidecar(b.kind))))
    || (a.ProposerPreferences? && b.ProposerPreferences?)
    || (a.PartialDataColumn? && b.PartialDataColumn?)
    || (a.DataColumnCompleted? && b.DataColumnCompleted?)
    || (a.PartialOutcome? && b.PartialOutcome?)
  }

  predicate BlockType(raw: Raw) { raw.PartialDataColumn? || raw.DataColumnCompleted? || raw.PartialOutcome? }

  function EventName(raw: Raw): string
    requires !raw.Malformed? && !raw.Unsupported?
  {
    match raw
    case Gossip(BeaconBlock, _, _, _, _) => "LIBP2P_TRACE_GOSSIPSUB_BEACON_BLOCK"
    case Gossip(Attestation, _, _, _, _) => "LIBP2P_TRACE_GOSSIPSUB_BEACON_ATTESTATION"
    case Gossip(AggregateAndProof, _, _, _, _) => "LIBP2P_TRACE_GOSSIPSUB_AGGREGATE_AND_PROOF"
    case Gossip(BlobSidecar, _, _, _, _) => "LIBP2P_TRACE_GOSSIPSUB_BLOB_SIDECAR"
    case Gossip(DataColumnSidecar, _, _, _, _) => "LIBP2P_TRACE_GOSSIPSUB_DATA_COLUMN_SIDECAR"
    case Gossip(DataColumnSidecarGloas, _, _, _, _) => "LIBP2P_TRACE_GOSSIPSUB_DATA_COLUMN_SIDECAR"
    case Gossip(ExecutionPayloadEnvelope, _, _, _, _) => "LIBP2P_TRACE_GOSSIPSUB_EXECUTION_PAYLOAD_ENVELOPE"
    case Gossip(ExecutionPayloadBid, _, _, _, _) => "LIBP2P_TRACE_GOSSIPSUB_EXECUTION_PAYLOAD_BID"
    case Gossip(PayloadAttestationMessage, _, _, _, _) => "LIBP2P_TRACE_GOSSIPSUB_PAYLOAD_ATTESTATION_MESSAGE"
    case ProposerPreferences(_, _, _) => "LIBP2P_TRACE_GOSSIPSUB_PROPOSER_PREFERENCES"
    case PartialDataColumn(_, _, _, _, _, _) => "LIBP2P_TRACE_GOSSIPSUB_PARTIAL_DATA_COLUMN"
    case PartialOutcome(_, _, _, _, _, _) => "LIBP2P_TRACE_GOSSIPSUB_PARTIAL_DATA_COLUMN_OUTCOME"
    case DataColumnCompleted(_, _, _, _, _, _) => "LIBP2P_TRACE_DATA_COLUMN_COMPLETED"
  }

  lemma NamesByType(raw: Raw)
    requires raw.Parsed()
    ensures Topic(raw) == EventName(raw)
  {
  }

  /** Three letters and the length of each name. */
  function Shape(raw: Raw): (char, char, char, nat)
    requires raw.Parsed()
  {
    match raw
    case Gossip(BeaconBlock, _, _, _, _) => ('B', 'E', 'A', 35)
    case Gossip(Attestation, _, _, _, _) => ('B', 'E', 'A', 41)
    case Gossip(AggregateAndProof, _, _, _, _) => ('A', 'G', 'G', 42)
    case Gossip(BlobSidecar, _, _, _, _) => ('B', 'L', 'O', 35)
    case Gossip(DataColumnSidecar, _, _, _, _) => ('D', 'A', 'T', 42)
    case Gossip(DataColumnSidecarGloas, _, _, _, _) => ('D', 'A', 'T', 42)
    case Gossip(ExecutionPayloadEnvelope, _, _, _, _) => ('E', 'X', 'E', 49)
    case Gossip(ExecutionPayloadBid, _, _, _, _) => ('E', 'X', 'E', 44)
    case Gossip(PayloadAttestationMessage, _, _, _, _) => ('P', 'A', 'Y', 50)
    case ProposerPreferences(_, _, _) => ('P', 'R', 'O', 43)
    case PartialDataColumn(_, _, _, _, _, _) => ('P', 'A', 'R', 42)
    case PartialOutcome(_, _, _, _, _, _) => ('P', 'A', 'R', 50)
    case DataColumnCompleted(_, _, _, _, _, _) => ('N', '_', 'C', 34)
  }

  lemma NameShape(raw: Raw)
    requires raw.Parsed()
    ensures var n := EventName(raw); |n| > 25 && (n[23], n[24], n[25], |n|) == Shape(raw)
  {
  }

  lemma NamesDiffer(a: Raw, b: Raw)
    requires a.Parsed() && b.Parsed() && !SameType(a, b)
    ensures EventName(a) != EventName(b)
  {
    hide EventName;
    NameShape(a);
    NameShape(b);
    assert Shape(a) != Shape(b);
  }

  lemma CachesByType(a: Raw, b: Raw)
    requires a.Parsed() && b.Parsed()
    ensures CacheOf(a) == CacheOf(b) <==> SameType(a, b)
  {
  }

  /** One cache, and one name, for each type and for no other. */
  lemma RoutedByType(a: Raw, b: Raw)
    requires a.Parsed() && b.Parsed()
    ensures CacheOf(a) == CacheOf(b) <==> SameType(a, b)
    ensures Topic(a) == Topic(b) <==> SameType(a, b)
  {
    CachesByType(a, b);
    hide Topic, CacheOf, EventName;
    NamesByType(a);
    NamesByType(b);
    if SameType(a, b) { NamesAgree(a, b); } else { NamesDiffer(a, b); }
  }

  lemma NamesAgree(a: Raw, b: Raw)
    requires a.Parsed() && b.Parsed() && SameType(a, b)
    ensures EventName(a) == EventName(b)
  {
  }

  // ----- keys -----

  /** The first of a block event's fields, in the order they are looked at, that holds no allowed value. */
  function FieldError(raw: Raw): Option<Error> {
    if raw.PartialDataColumn? && raw.direction !in {"RECV", "SEND", "DROP"} then Some(InvalidPartialDirection)
    else if raw.PartialDataColumn? && raw.capturePoint !in {"WIRE", "APP"} then Some(InvalidPartialCapturePoint)
    else if raw.DataColumnCompleted?
            && raw.completedVia !in {"FULL_GOSSIP", "PARTIAL_GOSSIP", "EL", "RECONSTRUCTION", "UNKNOWN"} then
      Some(InvalidCompletedVia)
    else if raw.PartialOutcome? && raw.stage !in {"DECODE", "HEADER", "CELLS"} then Some(InvalidPartialStage)
    else if raw.PartialOutcome? && raw.outcome !in {"ACCEPT", "IGNORE", "REJECT"} then Some(InvalidPartialOutcome)
    else None
  }

  /** Why an event is turned away before its duplicate cache is looked at. */
  function Rejection(setting: Setting, raw: Raw): Option<Error> {
    if raw.Malformed? then Some(ParseFailure)
    else if raw.Unsupported? then Some(UnsupportedEventType)
    else if FieldError(raw).Some? then FieldError(raw)
    else if !raw.DataColumnCompleted? && setting.hash(raw).None? then Some(HashFailure)
    else None
  }

  /** The text an accepted event is deduplicated under. */
  function KeyText(setting: Setting, raw: Raw): string
    requires Rejection(setting, raw).None?
  {
    if raw.DataColumnCompleted? then raw.blockRoot + ":" + Decimal(raw.columnIndex)
    else Decimal(setting.hash(raw).value)
  }

  lemma KeysByType(setting: Setting, raw: Raw)
    ensures KeyOf(setting, raw) == match Rejection(setting, raw)
                                   case Some(e) => Err(e)
                                   case None => Ok(KeyText(setting, raw))
  {
  }

  /** Two accepted events are the same observation: completions of one column of one block, or events of one
      type with one hash. */
  predicate SameObservation(setting: Setting, a: Raw, b: Raw) {
    && SameType(a, b)
    && if a.DataColumnCompleted? then a.blockRoot == b.blockRoot && a.columnIndex == b.columnIndex
       else setting.hash(a) == setting.hash(b)
  }

  /** No coarser and no finer: a key and a cache are shared exactly by the same observation. */
  lemma KeysTellObservations(setting: Setting, a: Raw, b: Raw)
    requires Rejection(setting, a).None? && Rejection(setting, b).None?
    ensures KeyOf(setting, a).Ok? && KeyOf(setting, b).Ok?
    ensures CacheOf(a) == CacheOf(b) && KeyOf(setting, a) == KeyOf(setting, b) <==> SameObservation(setting, a, b)
  {
    KeysByType(setting, a);
    KeysByType(setting, b);
    CachesByType(a, b);
    if a.DataColumnCompleted? && b.DataColumnCompleted? {
      CompletionKeyInjective(a.blockRoot, a.columnIndex, b.blockRoot, b.columnIndex);
    } else if !a.DataColumnCompleted? && !b.DataColumnCompleted? {
      DecimalInjective(setting.hash(a).value, setting.hash(b).value);
    }
  }

  /** How long an observation is remembered, in nanoseconds: 30 seconds for parts and verdicts, 7 minutes else. */
  function Window(raw: Raw): int {
    if raw.PartialDataColumn? || raw.PartialOutcome? then 30_000_000_000 else 420_000_000_000
  }

  lemma WindowByType(raw: Raw)
    requires raw.Parsed()
    ensures CacheTtl(CacheOf(raw)) == Window(raw)
  {
  }

  // ----- age -----

  /** What an accepted event not seen before comes to, at clock reading `now`. */
  ghost predicate Decides(clock: Wallclock, raw: Raw, slot: u64, now: Time, outcome: Outcome)
    requires clock.Valid()
  {
    if raw.ProposerPreferences? || (BlockType(raw) && slot == 0) then outcome == Exported
    else
      var q := clock.SlotAt(now);
      && (outcome == Exported <==> q.Some? && q.value <= slot + 16)
      && (outcome == Ignored <==> q.Some? && q.value > slot + 16)
      && (outcome == Failed(BeforeGenesis) <==> q.None?)
  }

  lemma AgeByType(setting: Setting, raw: Raw, slot: u64, now: Time)
    requires setting.wallclock.Valid() && raw.Parsed()
    ensures Decides(setting.wallclock, raw, slot, now, AgeCheck(setting, raw, slot, now))
  {
    var q := setting.wallclock.SlotAt(now);
    if q.Some? { TooOldIffBehind(q.value, slot); }
  }

  /** Only one outcome meets that description. */
  lemma DecidesOne(clock: Wallclock, raw: Raw, slot: u64, now: Time, outcome: Outcome, other: Outcome)
    requires clock.Valid() && Decides(clock, raw, slot, now, outcome) && Decides(clock, raw, slot, now, other)
    ensures outcome == other
  {
  }

  // ----- block slots -----

  /** The six types that tell the slot cache the slot of their block, when they know root and slot. */
  predicate TellsSlot(raw: Raw) {
    && ((raw.Gossip? && (raw.kind.BeaconBlock? || Sidecar(raw.kind))) || BlockType(raw))
    && raw.blockRoot != "" && raw.slot != 0
  }

  /** A part or a verdict that names its block but not its slot takes it from the slot cache. */
  predicate AsksSlot(raw: Raw) {
    (raw.PartialDataColumn? || raw.PartialOutcome?) && raw.slot == 0 && raw.blockRoot != ""
  }

  // ----- timing -----

  /** The timing a decorated event carries: slot and epoch unless a block type's slot is unknown, and
      propagation with them except on a verdict. */
  ghost predicate TimedAs(clock: Wallclock, raw: Raw, slot: u64, timing: Option<BlockTiming>)
    requires clock.Valid() && !raw.Malformed? && !raw.Unsupported?
  {
    TimingSays(clock, raw.timestampMs * 1_000_000, slot, !BlockType(raw) || slot != 0, !raw.PartialOutcome?, timing)
  }

  lemma TimingByType(setting: Setting, raw: Raw, slot: u64)
    requires setting.wallclock.Valid() && raw.Parsed()
    ensures TimedAs(setting.wallclock, raw, slot, TimingOf(setting, raw, slot))
  {
    var known := !BlockType(raw) || slot != 0;
    TimingCoherence(setting.wallclock, UnixMilli(raw.timestampMs), slot, known);
  }
}

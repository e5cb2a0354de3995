/** Raw events, and what admits, keys, places and times each type. */
module Events {
  import opened Base
  import opened Chain
  import opened Keys
  import opened Slots

  /** The gossip types that share one gate: hash dedup, then the age cutoff on the event's own slot. */
  datatype GossipKind =
    | BeaconBlock | Attestation | AggregateAndProof | BlobSidecar | DataColumnSidecar | DataColumnSidecarGloas
    | ExecutionPayloadEnvelope | ExecutionPayloadBid | PayloadAttestationMessage

  /** A raw event. `rest` stands for the remaining payload fields, which only the hash reads. */
  datatype Raw =
    | Malformed
    | Unsupported(eventType: string)
    | Gossip(kind: GossipKind, timestampMs: i64, slot: u64, blockRoot: string, rest: string)
    | ProposerPreferences(timestampMs: i64, slot: u64, rest: string)
    | PartialDataColumn(timestampMs: i64, slot: u64, blockRoot: string,
                        direction: string, capturePoint: string, rest: string)
    | DataColumnCompleted(timestampMs: i64, slot: u64, blockRoot: string,
                          columnIndex: u64, completedVia: string, rest: string)
    | PartialOutcome(timestampMs: i64, slot: u64, blockRoot: string, stage: string, outcome: string, rest: string)
  {
    predicate Parsed() { !Malformed? && !Unsupported? }

    /** The slot cache is consulted for these types before anything else can reject them. */
    predicate Feeds() {
      || (Gossip? && (kind.BeaconBlock? || kind.DataColumnSidecar? || kind.DataColumnSidecarGloas?))
      || PartialDataColumn? || DataColumnCompleted? || PartialOutcome?
    }

    /** Only these use the slot that Resolve answers. */
    predicate UsesResolvedSlot() { PartialDataColumn? || PartialOutcome? }

    /** Types whose slot 0 means "unknown". */
    predicate HasBlockTiming() { PartialDataColumn? || DataColumnCompleted? || PartialOutcome? }

    predicate HasAgeCutoff() { Parsed() && !ProposerPreferences? }
  }

  /** The duplicate caches; both data column sidecar types use the same one. */
  datatype CacheId =
    | BeaconBlocks | AggregateAndProofs | Attestations | BlobSidecars | DataColumnSidecars
    | ExecutionPayloadEnvelopes | ExecutionPayloadBids | PayloadAttestationMessages
    | ProposerPreferencesCache | PartialDataColumns | PartialDataColumnOutcomes | DataColumnsCompleted

  datatype DupKey = DupKey(cache: CacheId, key: string)

  const CONSENSUS_TTL: int := 7 * 60 * SECOND
  const PARTIAL_TTL: int := 30 * SECOND

  function CacheTtl(id: CacheId): int {
    if id.PartialDataColumns? || id.PartialDataColumnOutcomes? then PARTIAL_TTL else CONSENSUS_TTL
  }

  datatype Error =
    | ParseFailure | UnsupportedEventType | HashFailure | BeforeGenesis
    | InvalidPartialDirection | InvalidPartialCapturePoint | InvalidCompletedVia
    | InvalidPartialStage | InvalidPartialOutcome

  /** What becomes of one raw event. */
  datatype Outcome = Exported | Ignored | Failed(error: Error)

  /** The fixed surroundings of a handler: its slot clock and the struct hash, of which only
      determinism is known. */
  datatype Setting = Setting(wallclock: Wallclock, hash: Raw -> Option<u64>)

  predicate ValidDirection(s: string) { s == "RECV" || s == "SEND" || s == "DROP" }
  predicate ValidCapturePoint(s: string) { s == "WIRE" || s == "APP" }
  predicate ValidCompletedVia(s: string) {
    s == "FULL_GOSSIP" || s == "PARTIAL_GOSSIP" || s == "EL" || s == "RECONSTRUCTION" || s == "UNKNOWN"
  }
  predicate ValidStage(s: string) { s == "DECODE" || s == "HEADER" || s == "CELLS" }
  predicate ValidOutcome(s: string) { s == "ACCEPT" || s == "IGNORE" || s == "REJECT" }

  function CacheOf(raw: Raw): CacheId
    requires raw.Parsed()
  {
    match raw
    case Gossip(kind, _, _, _, _) =>
      (match kind
       case BeaconBlock => BeaconBlocks
       case Attestation => Attestations
       case AggregateAndProof => AggregateAndProofs
       case BlobSidecar => BlobSidecars
       case DataColumnSidecar => DataColumnSidecars
       case DataColumnSidecarGloas => DataColumnSidecars
       case ExecutionPayloadEnvelope => ExecutionPayloadEnvelopes
       case ExecutionPayloadBid => ExecutionPayloadBids
       case PayloadAttestationMessage => PayloadAttestationMessages)
    case ProposerPreferences(_, _, _) => ProposerPreferencesCache
    case PartialDataColumn(_, _, _, _, _, _) => PartialDataColumns
    case DataColumnCompleted(_, _, _, _, _, _) => DataColumnsCompleted
    case PartialOutcome(_, _, _, _, _, _) => PartialDataColumnOutcomes
  }

  /** The exported event's name. */
  function Topic(raw: Raw): string
    requires raw.Parsed()
  {
    match CacheOf(raw)
    case BeaconBlocks => "LIBP2P_TRACE_GOSSIPSUB_BEACON_BLOCK"
    case AggregateAndProofs => "LIBP2P_TRACE_GOSSIPSUB_AGGREGATE_AND_PROOF"
    case Attestations => "LIBP2P_TRACE_GOSSIPSUB_BEACON_ATTESTATION"
    case BlobSidecars => "LIBP2P_TRACE_GOSSIPSUB_BLOB_SIDECAR"
    case DataColumnSidecars => "LIBP2P_TRACE_GOSSIPSUB_DATA_COLUMN_SIDECAR"
    case ExecutionPayloadEnvelopes => "LIBP2P_TRACE_GOSSIPSUB_EXECUTION_PAYLOAD_ENVELOPE"
    case ExecutionPayloadBids => "LIBP2P_TRACE_GOSSIPSUB_EXECUTION_PAYLOAD_BID"
    case PayloadAttestationMessages => "LIBP2P_TRACE_GOSSIPSUB_PAYLOAD_ATTESTATION_MESSAGE"
    case ProposerPreferencesCache => "LIBP2P_TRACE_GOSSIPSUB_PROPOSER_PREFERENCES"
    case PartialDataColumns => "LIBP2P_TRACE_GOSSIPSUB_PARTIAL_DATA_COLUMN"
    case PartialDataColumnOutcomes => "LIBP2P_TRACE_GOSSIPSUB_PARTIAL_DATA_COLUMN_OUTCOME"
    case DataColumnsCompleted => "LIBP2P_TRACE_DATA_COLUMN_COMPLETED"
  }

  function HashKey(setting: Setting, raw: Raw): Result<string, Error> {
    match setting.hash(raw)
    case None => Err(HashFailure)
    case Some(h) => Ok(Decimal(h))
  }

  /** The key a well-formed event is deduplicated under, or why it is rejected before the cache. */
  function KeyOf(setting: Setting, raw: Raw): Result<string, Error> {
    match raw
    case Malformed => Err(ParseFailure)
    case Unsupported(_) => Err(UnsupportedEventType)
    case Gossip(_, _, _, _, _) => HashKey(setting, raw)
    case ProposerPreferences(_, _, _) => HashKey(setting, raw)
    case PartialDataColumn(_, _, _, direction, capturePoint, _) =>
      if !ValidDirection(direction) then Err(InvalidPartialDirection)
      else if !ValidCapturePoint(capturePoint) then Err(InvalidPartialCapturePoint)
      else HashKey(setting, raw)
    case DataColumnCompleted(_, _, root, column, completedVia, _) =>
      if !ValidCompletedVia(completedVia) then Err(InvalidCompletedVia) else Ok(CompletionKey(root, column))
    case PartialOutcome(_, _, _, stage, outcome, _) =>
      if !ValidStage(stage) then Err(InvalidPartialStage)
      else if !ValidOutcome(outcome) then Err(InvalidPartialOutcome)
      else HashKey(setting, raw)
  }

  /** The age step, for an event not seen before, at clock reading `now`. */
  function AgeCheck(setting: Setting, raw: Raw, slot: u64, now: Time): Outcome
    requires setting.wallclock.Valid()
  {
    if !raw.HasAgeCutoff() || (raw.HasBlockTiming() && slot == 0) then Exported
    else
      match setting.wallclock.SlotAt(now)
      case None => Failed(BeforeGenesis)
      case Some(current) => if TooOld(current, slot) then Ignored else Exported
  }

  /** The declarative filter: valid, not seen within the TTL, not stale, and the clock running. */
  function Verdict(setting: Setting, raw: Raw, seen: bool, slot: u64, now: Time): Outcome
    requires setting.wallclock.Valid()
  {
    match KeyOf(setting, raw)
    case Err(e) => Failed(e)
    case Ok(_) => if seen then Ignored else AgeCheck(setting, raw, slot, now)
  }

  /** The slot the age check and the timing work with. */
  ghost function EffectiveSlot(recordings: SlotLog, raw: Raw, at: int): u64 {
    if raw.UsesResolvedSlot() then Resolved(recordings, raw.blockRoot, raw.slot, at)
    else if raw.Parsed() then raw.slot else 0
  }

  /** The timing put on the client metadata; an outcome's propagation is not passed on. */
  function TimingOf(setting: Setting, raw: Raw, slot: u64): Option<BlockTiming>
    requires setting.wallclock.Valid() && raw.Parsed()
  {
    var timing := setting.wallclock.Timing(UnixMilli(raw.timestampMs), slot, !raw.HasBlockTiming() || slot != 0);
    if raw.PartialOutcome? && timing.Some? then Some(timing.value.(slotStartDiff := None)) else timing
  }
}

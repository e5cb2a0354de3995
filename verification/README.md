# The event admission pipeline of the Xatu sidecar

A consensus client hands the sidecar batches of raw events. For each event the sidecar decides, once,
whether to export it: it notes or looks up the slot of the event's block root, checks the event's enum
values, tests and records a deduplication key in a TTL cache, compares the event's slot with the wallclock,
and then decorates a fresh metadata object, counts the event, and offers it to every sink. Many host threads
may do this at once while entries expire, a cron job stores new clock drifts and a report resets the
counters. This project models that pipeline and proves what it guarantees.

## Two levels, one specification

* **Objects.** `Ttl.TtlCache`, `Slots.BlockSlotCache`, `Summary.Summary`, the event classes of `EventSources` and
  `Handler.Handler` update their fields in place, as the program does. Each carries a ghost history, and its
  methods are proved against functions of that history. `Sequential` collects the histories in a `World` and
  says what one event, and a batch, does to it.
* **Steps.** `Machine` is a transition system with any number of calls in flight. The atomic steps of a call
  are: load the drift, consult the slot cache, `GetOrSet`, age check, decorate, count, load the topic's count,
  store it, and one sink at a time. Between them the clock may tick, expired entries may be evicted, drifts
  may be stored and a report may advance. `Run` executes any sequence of these actions; an action that is
  not possible in a state leaves it unchanged. `Invariants` holds the inductive invariant, and the modules
  after it hold what follows for every run.
* **By type.** `Promises` says what each event type is promised, by constructor, literal and number and through none of
  the model's definitions: its name, its key, how long it is remembered, its age limit, whether it tells or asks the slot
  cache, its timing. The results on both levels are stated in those terms.
* **Between them.** Both levels use the same key, age-check and timing functions of `Events`, `Chain` and `Keys`, and
  `Serial` proves that the transition system, run one call at a time, does exactly what the sequential model
  says, from the same starting point as a new handler.

## Reading order

`Base`, `Ttl`, `Chain`, `Keys`, `Slots`, `Events`, `Promises` define the pieces; `Machine`, `Invariants`, `AtMostOnce`, `Consequences`,
`NonInterference` treat concurrent runs; `Summary`, `SummaryRace`, `Counting`, `Straddling` the counters; `Sequential`,
`EventSources`, `Handler` the objects; `Serial` joins the two.

## What is assumed of the libraries and of the surroundings

* ttlcache: `GetOrSet`, `Get` and `Set` are atomic. An entry is live up to and including its expiry instant. A hit
  extends the expiry to a full TTL from now, except where touch on hit is disabled. `DefaultTTL` is the cache's
  own TTL. The background loop only removes expired entries, at moments of its choosing.
* ethwallclock: the slot at t is floor((t - genesis) / slot length), an error before genesis; a slot's epoch is
  slot / slotsPerEpoch; start times are computed without overflow. Both divisors are positive, which
  `Ethereum.Validate` checks (`pkg/processor/config.go:73`) although `Config.Validate` does not call it
  (`pkg/processor/config.go:62`). Slot length and genesis lie in the range where the library's own
  durations fit an int64 of nanoseconds: at most 9223372036 seconds per slot, genesis at most 2^53 seconds.
  The library's own subtraction of genesis from an instant is taken to be exact. Go's saturates after some 292
  years, so instants further than that from genesis are idealised here; the program's own subtraction, which gives
  the propagation, does saturate in the model, and the failing half of `Chain.TimingCoherence` is about those
  instants only.
* hashstructure: a deterministic partial function of the raw event. Nothing here assumes that it is free of
  collisions.
* One clock, which never goes back, serves the caches and the wallclock; instants lie in the range of int64 Unix
  milliseconds.

## Where the documentation and the code differ

* The repository's own README says (line 266) that only the first completion per `block_root` and `column_index`
  is exported. The duplicate entry expires, so this holds exactly as far as the age cutoff takes over before it does:
  `AtMostOnce.CompletionsSafeIff` gives the condition, (17 + lead) * secondsPerSlot <= 420, where `lead` is how many
  slots ahead of the clock the completion was when first exported. At 12 second slots that is a lead of at
  most 18. A completion with slot 0 has no age cutoff and repeats are exported (`AtMostOnce.UnknownSlotRepeats`).
* A topic's count in the summary is meant to be the number of its exports since the last reset. The first add
  is counted twice (`Summary.TableCountsFirstTwice`); `Summary.CountExactIff` says exactly when a count is right,
  and `Summary.RepairedTableIsExact` that using the `loaded` result would make it right always.
* Counts are also meant to start over with each report. An add that has loaded its topic's count when a report
  replaces the map stores the old count plus one into the new map (`SummaryRace.StraddlerCarries`), so the new
  interval can show any count after a single export (`SummaryRace.StraddlingAdd`, `Straddling.BoundFails`).
  `Counting.IntervalBoundedIff` says exactly when an interval is free of this.

## Model

| member | source | states |
|---|---|---|
| `AtMostOnce.CompletionsSafeIff` | `pkg/event/gossipsub/data_column_completed.go:116-147` | over all interleaved runs of any length: no (root, column) completion naming one known slot is decided to be exported twice if and only if the 7 minute TTL covers 17 + lead slots; and no sink is given two under exactly the same condition |
| `AtMostOnce.CompletionsAtTwelveSeconds` | `pkg/cache/duplicate.go:28` | at 12 second slots the guarantee holds exactly for leads up to 18 |
| `AtMostOnce.CompletionsWithoutLead` | `pkg/cache/duplicate.go:28` | for completions never ahead of the clock it holds exactly for slots of up to 24 seconds |
| `AtMostOnce.GossipSafeIff` | `pkg/event/gossipsub/beacon_block.go:95-131` | one identical raw gossip event, slot 0 included: within the same bound it is exported, and delivered to each sink, at most once, from the hash's determinism alone; and the bound is exact as soon as some event of the kind in the witness slot can be hashed |
| `AtMostOnce.NoLaterExport` | `pkg/event/gossipsub/partial.go:127-138` | a second export of one observation, a gossip event or a block event of known slot that led by at most `lead`, needs it to be remembered for less than 17 + lead slots |
| `AtMostOnce.TwiceAt` | `pkg/event/gossipsub/data_column_completed.go:134-146` | an accepted event whose slot the clock accepts at two instants, further apart than it is remembered, has a run that exports it twice and leaves both in a sink |
| `AtMostOnce.UnknownSlotRepeats` | `pkg/event/gossipsub/partial.go:128-130` | whatever the slot length, some run exports a completion without a slot twice and delivers both |
| `AtMostOnce.PassesAreApart` | `pkg/event/gossipsub/data_column_completed.go:134-144` | in every interleaving, two calls with the same observation that both pass GetOrSet do so further apart than it is remembered |
| `Consequences.FilterDecides` | `pkg/processor/handler.go:164-461` | every decided call, in every interleaving, by type and number: failed with the error of its first bad field or hash; else ignored if an accepted call brought the same observation within 30 seconds or 7 minutes before; else, if it is gossip or a block event of known slot, exported, ignored or failed as the clock stands at most 16 slots past, further past, or before genesis; else exported. Its slot is its own unless it asks the slot cache |
| `Consequences.DroppedWasSeen` | `pkg/event/gossipsub/beacon_block.go:105-114` | an accepted call is stopped at its gate exactly when an earlier one brought the same observation in time; with a hash that tells the run's events apart that was the identical event, or a completion of the same root and column |
| `Consequences.EntriesSlide` | `pkg/cache/duplicate.go:35-74` | in every reachable state an entry expires one TTL after its key's last use, whatever became of that use, and a key is live exactly until then |
| `Consequences.ChainsPassOnce` | `pkg/event/gossipsub/data_column_completed.go:134-144` | in a chain of calls with one key, each within the TTL of the one before, only the first can be exported, and it passes the gate exactly when no call extends the chain backwards |
| `Consequences.RecordingsExact` | `pkg/processor/handler.go:175` | the slot cache's history is one recording of exactly its root and slot for each beacon block, data column sidecar of either type, part, completion and verdict that carried both, those ignored or rejected later included, and of nothing else; entries last 7 minutes from the last one |
| `Consequences.SlotFromLastRecorder` | `pkg/event/gossipsub/partial_data_column.go:76` | a partial event without a slot gets the one named by the last call that recorded its root before it, if that is at most 7 minutes back, else 0 |
| `Consequences.SlotWithoutRecorder` | `pkg/event/gossipsub/partial_data_column_outcome.go:63` | without such a call its slot stays 0 |
| `Consequences.DeliveredAs` | `pkg/event/gossipsub/beacon_block.go:61-92` | every delivered event has its type's literal name, its timestamp moved by its call's drift for a date, that drift's size on its metadata, and the timing its slot has, in numbers: present from genesis on, with slot and epoch unless a block event's slot is unknown, and with propagation unless it is a verdict |
| `Consequences.DriftCoherent` | `pkg/processor/handler.go:165-166` | a delivered event's clock drift is the distance between its date and its timestamp in whole milliseconds, in any interleaving with drift stores and for every int64 drift |
| `Consequences.DriftOfTheMoment` | `pkg/processor/handler.go:463-466` | a call's drift is the one stored last before its first step |
| `Consequences.DeliveredIsFresh` | `pkg/event/gossipsub/partial.go:81-138` | every delivered gossip event, and block event of known slot, was at most 16 slots behind the clock at its age check, and if its timestamp is not after that shows a propagation below 17 slots |
| `Consequences.ExportsStayFrozen` | `pkg/processor/handler.go:478-499` | nothing that happens later changes an event in a sink or its client metadata |
| `Consequences.SinksComplete` | `pkg/processor/handler.go:546-566` | a finished call's event is in every sink if and only if the call was exported |
| `Invariants.StepInv` | `pkg/processor/handler.go:164-461` | every step of every call and of the surroundings keeps the invariant: caches refine their histories, histories are the calls', decisions are the filter's, sinks hold what was delivered |
| `Invariants.RunInv` | `pkg/processor/handler.go:164-461` | so does every run |
| `Invariants.GateKeepsLogs` | `pkg/event/gossipsub/data_column_completed.go:134` | GetOrSet hits exactly when the log of uses shows one within the TTL, and logs this one |
| `NonInterference.EvictionInvisible` | `pkg/cache/duplicate.go:77-90` | deleting every eviction from a run changes no call, sink, metadata, counter or history |
| `NonInterference.DriftOnlyDates` | `pkg/processor/handler.go:523-535` | two runs of one schedule with other drifts agree on everything but drifts and dates |
| `NonInterference.OthersDoNotMatter` | `pkg/cache/duplicate.go:11-24` | for every event type, the two data column sidecar types as one: deleting the calls of all other types changes no decision, slot or metadata of its calls; for parts and verdicts only what the others tell the slot cache must stay |
| `Serial.CallIsHandled` | `pkg/processor/handler.go:164-461` | one uninterrupted call of the transition system leaves the histories, the summary and every sink as the sequential handler does, with the same outcome |
| `Serial.BatchIsHandled` | `main.go:133-152` | and so does a serial run of any batch |
| `Serial.InitStands` | `pkg/processor/handler.go:111-132` | the transition system's initial state stands for a new handler's empty histories |
| `Counting.PipelineIsARace` | `pkg/processor/handler.go:552-553` | every run of the pipeline drives the counters through a run of the counter race that resets where the pipeline does |
| `Counting.AddedIsCounted` | `pkg/processor/handler.go:552` | the exported events ever counted are as many as the calls that counted one |
| `Counting.DoneIsStored` | `pkg/processor/handler.go:553` | from any state of the invariant, while nothing resets the table, a topic's completed adds grow by exactly the calls that store one |
| `Counting.CountsBounded` | `pkg/processor/summary.go:93-125` | from any reset to any point before the next one, in any interleaving: with n of a topic's exports stored since the reset, its count lies between 2 and n + c, where c is the most that an add of it half done at the reset had loaded (1 without one) |
| `Counting.IntervalBoundedIff` | `pkg/processor/summary.go:93-125` | after a reset a topic's counts stay between 2 and n + 1 in every run up to the next reset if and only if, at the reset, no call between the halves of its add has loaded any other count than 1 |
| `Counting.IntervalsBeginBlank` | `pkg/processor/summary.go:121-125` | a reset takes away every count and leaves half-done adds holding theirs |
| `Straddling.BoundFails` | `pkg/processor/summary.go:94-124` | for every setting some run of the pipeline reaches a reset after which a count leaves 2 to n + 1 |
| `Counting.ReportsConserve` | `pkg/processor/summary.go:45-75` | reports never add up to more exports than calls counted; what they and the counter miss landed between a report's read and its reset |
| `SummaryRace.HalvesMakeAnAdd` | `pkg/processor/summary.go:93-101` | the two halves of an add with nothing between them are the sequential add |
| `SummaryRace.RunBounded` | `pkg/processor/summary.go:93-101` | from any state, no interleaving without a reset shows a count above the completed adds plus what was carried in, or below two once one completed |
| `SummaryRace.IntervalBoundedIff` | `pkg/processor/summary.go:93-125` | in the counters alone: all runs from a reset to the next keep the bounds if and only if every half-done add of the topic had loaded 1 |
| `SummaryRace.StraddlerCarries` | `pkg/processor/summary.go:94-100` | an add half done at a reset stores the old interval's count plus one as the new interval's first count |
| `SummaryRace.StraddlingAdd` | `pkg/processor/summary.go:94-124` | every count from 2 up can be what such an add carries over a reset: what is carried has no bound |
| `SummaryRace.RaceOutcomes` | `pkg/processor/summary.go:93-101` | the counts that n racing unit adds can leave are exactly 2 to n + 1 |
| `SummaryRace.StepConserves` | `pkg/processor/summary.go:56-75` | every counter step keeps added = reported + lost + outstanding, up to wrap-around |
| `SummaryRace.ReportsNeverOvercount` | `pkg/processor/summary.go:45-75` | so does every run, and the reports' sum is at most what was added |
| `SummaryRace.ReportsShowTables` | `pkg/processor/summary.go:45-70` | every report of every run shows the topic counts as they stood at one point of it, and their sum |
| `Summary.TableCountsFirstTwice` | `pkg/processor/summary.go:93-101` | after any adds a topic's count is the sum of its adds plus its first add once more, modulo 2^64 |
| `Summary.CountExactIff` | `pkg/processor/summary.go:94-100` | a present topic's count is the sum of its adds if and only if its first add was of zero events |
| `Summary.TableTotal` | `pkg/processor/summary.go:46-51` | the total exceeds the sum of all adds by the first adds of the topics present; the repaired table's total is that sum |
| `Summary.RepairedTableIsExact` | `pkg/processor/summary.go:94` | with the `loaded` result respected every count is the sum of its adds |
| `Summary.ExportCountLaw` | `pkg/processor/handler.go:552-553` | with one unit add per export, every present topic shows its exports plus one |
| `Summary.ExportTotalLaw` | `pkg/processor/summary.go:46-57` | and the total exceeds the exports by the number of distinct topics |
| `Summary.SumCounts` | `pkg/processor/summary.go:48-51` | the loop over the copied counts returns their sum modulo 2^64, in whatever order |
| `Summary.Summary.AddEventsExported` | `pkg/processor/summary.go:73-75` | the counter is the number of events counted since the reset, modulo 2^64 |
| `Summary.Summary.AddFailedEvents` | `pkg/processor/summary.go:83-85` | likewise for failures |
| `Summary.Summary.AddEventStreamEvents` | `pkg/processor/summary.go:93-101` | the table stays the function of the adds since the reset |
| `Summary.Summary.GetEventStreamEvents` | `pkg/processor/summary.go:104-118` | the copy is the whole table |
| `Summary.Summary.Reset` | `pkg/processor/summary.go:121-125` | every counter starts over |
| `Summary.Summary.Print` | `pkg/processor/summary.go:45-70` | a report shows the table of the adds since the last one, its total with every first add counted twice, and for exports the exported count plus the number of topics |
| `Ttl.LiveIffSeen` | `pkg/cache/duplicate.go:34-74` | a key is live if and only if the log shows a use of it within its TTL |
| `Ttl.PutTracks` | `pkg/cache/block_slot.go:47` | logging one more use is what setting the entry does to the store |
| `Ttl.EvictTracks` | `pkg/cache/duplicate.go:77-90` | time passing and the removal of an expired entry leave the store's account in the log true |
| `Ttl.TtlCache.GetOrSet` | `pkg/event/gossipsub/data_column_completed.go:134-144` | a hit is reported exactly when the history shows a use within the TTL, and either way the call is a new use |
| `Ttl.TtlCache.Set` | `pkg/cache/block_slot.go:47` | a new use with the new value |
| `Ttl.TtlCache.Get` | `pkg/cache/block_slot.go:52-54` | finds the last value used within the TTL and leaves no trace |
| `Ttl.TtlCache.EvictExpired` | `pkg/cache/duplicate.go:77-90` | removes the entry only if it has expired, and leaves the history alone |
| `Slots.BlockSlotCache.Resolve` | `pkg/cache/block_slot.go:41-57` | answers from the recordings alone, and records exactly the known slots of named roots |
| `Slots.ResolveRefinesLog` | `pkg/cache/block_slot.go:41-57` | the atomic step on the store gives that answer however much has been evicted |
| `Slots.RecordedUntilReplaced` | `pkg/cache/block_slot.go:22-27` | a recording answers reads of its root for exactly its TTL unless the root is recorded again; reads do not extend it |
| `Keys.CompletionKeyRoundTrip` | `pkg/event/gossipsub/data_column_completed.go:132` | splitting a completion key at its last colon and reading the digits gives back root and column, for every root string |
| `Keys.CompletionKeyInjective` | `pkg/event/gossipsub/data_column_completed.go:132` | two completions share a key if and only if they share root and column |
| `Keys.DecimalInjective` | `pkg/event/gossipsub/beacon_block.go:105` | different hashes print differently |
| `Chain.NewBlockTiming` | `pkg/event/gossipsub/partial.go:81-124` | the timing filled in step by step is the clock's timing of the timestamp, slot parts absent exactly for slot 0 |
| `Chain.TimingCoherence` | `pkg/event/gossipsub/partial.go:81-124` | the timing in numbers of the configured genesis and slot length: the wallclock slot and epoch hold the timestamp, the slot lies in its epoch, slot, epoch and propagation are present together, propagation is the elapsed time in whole milliseconds, 0 for future slots and capped by a Duration, and in whole slots is the wallclock's distance exactly below that cap |
| `Chain.DelayInSlots` | `pkg/event/gossipsub/partial.go:114-121` | the saturating subtraction and the truncation to milliseconds lose no whole slot below that limit, and always some above it |
| `Chain.FreshMeansSmallDiff` | `pkg/event/gossipsub/partial.go:114-137` | a slot that passes the age check has propagation below 17 slots for timestamps up to the check, on a chain of any age |
| `Chain.StalenessIsAbsorbing` | `pkg/event/gossipsub/partial.go:127-138` | once too old, always too old |
| `Chain.AcceptanceWindow` | `pkg/event/gossipsub/partial.go:137` | a slot at most `lead` ahead at one instant can pass the age check for less than 17 + lead slots after it |
| `Chain.TooOldIffBehind` | `pkg/event/gossipsub/partial.go:137` | the guarded uint64 comparison is the comparison of the true integers |
| `Chain.SlotAtMost` | `pkg/event/gossipsub/partial.go:132` | the clock gives a slot exactly from the configured genesis on, and at most n exactly until slot n + 1 starts |
| `Chain.EpochHoldsSlot` | `pkg/event/gossipsub/partial.go:102-112` | a slot starts within the window of its epoch |
| `Chain.ClockDriftMillis` | `pkg/processor/handler.go:469-476` | the absolute drift in whole milliseconds, without overflow at the minimum |
| `Sequential.BatchConcat` | `main.go:133-152` | handling A ++ B is handling A, then B, under the same readings |
| `Sequential.BatchConserves` | `main.go:133-152` | every element ends in exactly one of unreadable, failed, ignored, exported; records, topic adds and exported count grow by the exported ones |
| `Sequential.RepeatIsIgnored` | `pkg/cache/duplicate.go:26-32` | the next repeat of an accepted event within 30 seconds (parts and verdicts) or 7 minutes (others) is ignored; an event that is turned away leaves the duplicate caches alone |
| `Sequential.RepeatWindow` | `pkg/cache/duplicate.go:26-32` | for a fresh repeat of an observation made once before, that time is exact: ignored within it, exported after it |
| `Sequential.HandledByType` | `pkg/processor/handler.go:164-461` | one call of the sequential handler, by type, literal and number: what becomes of the event, the slot it tells, the use it makes, and the name, date, drift and timing it is recorded with |
| `Promises.RoutedByType` | `pkg/processor/handler.go:177-437` | two events share a duplicate cache, and a name, exactly when they are of one type, the two data column sidecar types counting as one |
| `Promises.NamesByType` | `pkg/event/gossipsub/aggregate_and_proof.go:97` | each type's events are exported under its own literal name |
| `Promises.KeysByType` | `pkg/event/gossipsub/partial_data_column_outcome.go:122-137` | an event is turned away with the error of the first field, in order, that holds none of its literal values, or for its hash; any other has the text of its root and column, or of its hash, for a key |
| `Promises.KeysTellObservations` | `pkg/event/gossipsub/beacon_block.go:100-105` | accepted events share cache and key if and only if they are one type with one hash, or completions of one root and column |
| `Promises.WindowByType` | `pkg/cache/duplicate.go:26-74` | parts and verdicts are remembered for 30 seconds, all else for 7 minutes |
| `Promises.AgeByType` | `pkg/event/gossipsub/beacon_block.go:116-130` | the age step by type and slot number: preferences and block events without a slot pass; all others pass up to 16 slots behind the clock and fail before genesis |
| `Promises.TimingByType` | `pkg/event/gossipsub/partial_data_column_outcome.go:94-110` | every type's timing is what the numbers say, without propagation on a verdict |
| `EventSources.GossipEvent.ShouldIgnore` | `pkg/event/gossipsub/beacon_block.go:95-131` | a failing hash turns the event away; else it makes one use of its hash's text, is ignored if that was used in the last 7 minutes, and otherwise is exported, ignored or failed by the slot numbers of its age check |
| `EventSources.GossipEvent.Decorate` | `pkg/event/gossipsub/beacon_block.go:61-92` | the type's literal name, the timestamp moved by the drift, and, exactly from genesis on, the timing of its slot in numbers on its own metadata |
| `EventSources.ProposerPreferencesEvent.ShouldIgnore` | `pkg/event/gossipsub/proposer_preferences.go:99-122` | the same by hash, and whatever was not seen in the last 7 minutes is exported |
| `EventSources.ProposerPreferencesEvent.Decorate` | `pkg/event/gossipsub/proposer_preferences.go:62-94` | as for gossip events |
| `EventSources.BlockEvent.constructor` | `pkg/event/gossipsub/data_column_completed.go:50-63` | building the event records or resolves its slot; parts and outcomes keep the resolved slot, completions their own |
| `EventSources.BlockEvent.Validate` | `pkg/event/gossipsub/partial_data_column_outcome.go:122-130` | the error of the first field, in order, that holds none of its literal values, and none otherwise |
| `EventSources.BlockEvent.ShouldIgnore` | `pkg/event/gossipsub/partial_data_column.go:143-174` | bad fields, a failing hash, and a use of the root and column or the hash within 30 seconds or 7 minutes decide first; then slot 0 is exported and any other slot exported, ignored or failed by the slot numbers of its age check |
| `EventSources.BlockEvent.Decorate` | `pkg/event/gossipsub/partial_data_column.go:81-139` | timing of the kept slot; an outcome's propagation is left out |
| `EventSources.IsStaleSlot` | `pkg/event/gossipsub/partial.go:127-138` | slot 0 is never stale, otherwise stale means more than 16 slots behind the clock, with its error before genesis |
| `Handler.DuplicateCache.constructor` | `pkg/cache/duplicate.go:35-74` | twelve distinct empty caches, each with its own TTL |
| `Handler.OfferToAll` | `pkg/processor/handler.go:555-563` | every sink is offered the event, whatever sinks before it answered |
| `Handler.Handler.constructor` | `pkg/processor/handler.go:89-135` | a new handler is valid and without history, given sinks that have been offered nothing |
| `Handler.Handler.HandleNewDecoratedEvent` | `pkg/processor/handler.go:546-566` | one exported event and one unit for its name, then the same ordered events in every sink, all still reading, name included, as when exported |
| `Handler.Handler.StoreClockDrift` | `pkg/processor/handler.go:535` | only the drift changes |
| `Handler.Handler.ExportEvent` | `pkg/processor/handler.go:445-461` | gate, decorate and export change the histories as the sequential model says, and return its error |
| `Handler.Handler.Feed` | `pkg/processor/handler.go:273-299` | per gossip kind: blocks and both sidecar types with a root and a slot are recorded with exactly those before anything can reject them; other gossip leaves the slot cache alone |
| `Handler.Handler.HandleRawEvent` | `pkg/processor/handler.go:164-442` | one raw event changes every history as the sequential model says, and so, by type, literal and number, as promised of its type, with the drift of the moment; it returns the event's error, and all earlier exports stay as they were |
| `Handler.Handler.BeginsEmpty` | `pkg/processor/handler.go:111-132` | a new handler's histories are the empty ones the transition system starts from |
| `Handler.HandleBatch` | `main.go:133-152` | the loop over a batch is the left fold of single events; an element's error stops nothing |
| `Handler.SendEventBatch` | `main.go:92-155` | return codes, and no effect at all without a handler or an array of events |

## Left out

- C strings, JSON and YAML decoding: a raw event is a datatype, and what cannot be decoded is a constructor of it; an element whose event type cannot be read is `Unreadable`.
- NTP queries, scheduling, logging, sink networking, start and stop, version strings and configuration: drifts are arbitrary values stored at arbitrary times, sinks record what they are offered and may fail.
- The internals of ttlcache, hashstructure and ethwallclock: only the contracts listed above are used.
- The copying of payload fields into protobuf messages, event ids, and the payload-specific additional data: an event keeps its raw payload, date, name, metadata object and timing.
- The nil checks on the raw event: the handler never passes a nil one.
- The source and target epoch start times of attestations, which the code derives from epoch numbers used as slots (`pkg/event/gossipsub/attestation.go:165-166`).
- `events_failed` is modelled but nothing in the pipeline increments it; panics recovered in the batch entry point are not modelled.
- The nine gossip types are one class `GossipEvent` with a kind, and the three block types one class `BlockEvent`; the inline branches of the type switch and `exportEvent` are one method, since they are the same calls in the same order.
- Replacing the summary's map on reset is one atomic step; the memory model of copying a `sync.Map` in use is not.
- Copying the topic counts for a report is one atomic step in the transition system; a concurrent add during the copy may in the program be seen for one topic and not for another.
- The value kept in a duplicate entry (the first timestamp) is tracked, but the program only logs it.
- SummaryRace.RaceOutcomes: for fewer than 2^64 - 1 adds, after which the counter itself wraps around.
- Counting.CountsBounded: likewise while n + c is below 2^64.
- AtMostOnce.GossipSafeIff: the exactness half asks that some event of the kind in the witness slot can be hashed, since an event that cannot be is never exported; the safe half asks nothing of the hash.
- Whole-run at-most-once is not claimed for proposer preferences (no age cutoff), for partial events (30 second TTL) or for completions without a slot; what holds of them is the sliding window (`Consequences.FilterDecides`, `Consequences.ChainsPassOnce`).

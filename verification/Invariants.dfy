/** What every interleaving of the pipeline keeps. */
module Invariants {
  import opened Base
  import opened Ttl
  import opened Slots
  import opened Chain
  import opened Events
  import opened Machine

  type Calls = map<nat, Call>
  type UseLog = seq<Use<DupKey, Time>>

  function Rank(pc: Pc): nat {
    match pc
    case Entered => 0 case Metered => 1 case Placed => 2 case Gated => 3 case Admitted => 4
    case Decorated => 5 case Counted => 6 case Loaded => 7 case Delivering => 8 case Finished => 9
  }

  /** Some use at or before position `n` of `key` lies within its TTL before `at`. */
  ghost predicate SeenBefore(uses: UseLog, n: nat, key: DupKey, at: int) {
    n <= |uses| && Seen(uses[..n], key, TtlOf(key), at)
  }

  predicate MadeRecording(c: Call) {
    Rank(c.pc) >= 2 && c.raw.Feeds() && Records(c.raw.blockRoot, c.raw.slot)
  }

  predicate MadeUse(setting: Setting, c: Call) {
    Rank(c.pc) >= 3 && KeyFor(setting, c.raw).Some?
  }

  // ----- the invariant, part by part -----

  ghost predicate CachesRefineLogs(dup: Store<DupKey, Time>, slots: Store<string, u64>,
                                   uses: UseLog, recordings: SlotLog, now: int)
  {
    && Tracks(dup, uses, TtlOf, now)
    && Tracks(slots, recordings, Fixed(BLOCK_SLOT_TTL), now)
    && WellFormed(recordings)
  }

  /** GetOrSet passed exactly the uses whose key had not been used within its TTL. */
  ghost predicate GatesExact(uses: UseLog, gates: seq<Gate>) {
    && |gates| == |uses|
    && (forall i :: 0 <= i < |gates| ==> (gates[i].passed <==> !SeenBefore(uses, i, uses[i].key, uses[i].at)))
  }

  /** The gate uses are exactly those of the well-formed calls that reached it, one each. */
  ghost predicate UsesAreCalls(setting: Setting, uses: UseLog, gates: seq<Gate>, calls: Calls) {
    && |gates| == |uses|
    && (forall i :: 0 <= i < |gates| ==>
          gates[i].call in calls && MadeUse(setting, calls[gates[i].call]) && calls[gates[i].call].arrival == i)
    && (forall id :: id in calls && MadeUse(setting, calls[id]) ==> UseOf(setting, uses, gates, id, calls[id]))
  }

  ghost predicate UseOf(setting: Setting, uses: UseLog, gates: seq<Gate>, id: nat, c: Call)
    requires |gates| == |uses| && MadeUse(setting, c)
  {
    && c.arrival < |gates| && gates[c.arrival].call == id
    && uses[c.arrival].key == KeyFor(setting, c.raw).value && uses[c.arrival].at == c.gateAt
  }

  /** The slot recordings are exactly those of the feeding calls that carried a root and a slot,
      whatever became of those calls afterwards. */
  ghost predicate RecordingsAreCalls(recordings: SlotLog, recorders: seq<nat>, calls: Calls) {
    && |recorders| == |recordings|
    && (forall i :: 0 <= i < |recorders| ==>
          recorders[i] in calls && MadeRecording(calls[recorders[i]]) && calls[recorders[i]].placement == i)
    && (forall id :: id in calls && MadeRecording(calls[id]) ==> RecordingOf(recordings, recorders, id, calls[id]))
  }

  ghost predicate RecordingOf(recordings: SlotLog, recorders: seq<nat>, id: nat, c: Call)
    requires |recorders| == |recordings| && MadeRecording(c)
  {
    && c.placement < |recordings| && recorders[c.placement] == id
    && recordings[c.placement] == Use(c.raw.blockRoot, c.raw.slot, c.placedAt)
  }

  ghost predicate SlotDetermined(recordings: SlotLog, now: int, c: Call) {
    Rank(c.pc) >= 2 ==>
      && c.placement <= |recordings|
      && c.slot == EffectiveSlot(recordings[..c.placement], c.raw, c.placedAt)
      && c.placedAt <= now
  }

  /** The call's key was in use when it arrived. */
  ghost predicate Repeated(setting: Setting, uses: UseLog, c: Call) {
    KeyFor(setting, c.raw).Some? && SeenBefore(uses, c.arrival, KeyFor(setting, c.raw).value, c.gateAt)
  }

  /** The call's decision is the declarative filter's verdict on the log of uses. */
  ghost predicate Decided(setting: Setting, uses: UseLog, now: int, c: Call)
    requires setting.wallclock.Valid()
  {
    && (Rank(c.pc) == 3 ==> KeyFor(setting, c.raw).Some? && !Repeated(setting, uses, c))
    && (Rank(c.pc) >= 3 ==> c.placedAt <= c.gateAt <= c.ageAt <= now)
    && (Rank(c.pc) < 4 ==> c.outcome == None)
    && (4 <= Rank(c.pc) < 9 ==> c.outcome == Some(Exported))
    && (4 <= Rank(c.pc) ==>
          c.outcome == Some(Verdict(setting, c.raw, Repeated(setting, uses, c), c.slot, c.ageAt)))
  }

  /** The call's metadata holds its own drift, and its timing once decorated. */
  ghost predicate MetaOf(setting: Setting, metas: map<nat, Meta>, id: nat, c: Call)
    requires setting.wallclock.Valid()
  {
    && (Rank(c.pc) >= 1 ==> id in metas && metas[id].clockDrift == ClockDriftMillis(c.drift))
    && (1 <= Rank(c.pc) < 5 ==> metas[id].timing == None)
    && (Rank(c.pc) >= 5 && c.outcome == Some(Exported) && c.raw.Parsed() ==>
          metas[id].timing == TimingOf(setting, c.raw, c.slot))
  }

  /** A sink's events are those of distinct calls that delivered to it. */
  ghost predicate SinkHoldsCalls(sink: seq<Event>, k: nat, calls: Calls) {
    && (forall i :: 0 <= i < |sink| ==>
          && sink[i].call in calls && calls[sink[i].call].delivered > k
          && calls[sink[i].call].raw.Parsed() && sink[i] == EventFor(sink[i].call, calls[sink[i].call]))
    && (forall i, j :: 0 <= i < j < |sink| ==> sink[i].call != sink[j].call)
  }

  ghost predicate DeliveredOf(sinks: seq<seq<Event>>, id: nat, c: Call) {
    && c.delivered <= |sinks|
    && (c.delivered > 0 ==> c.raw.Parsed() && c.outcome == Some(Exported) && Rank(c.pc) >= 8)
    && (Rank(c.pc) == 9 && c.outcome == Some(Exported) ==> c.delivered == |sinks|)
    && (c.raw.Parsed() ==> forall k :: 0 <= k < c.delivered ==> EventFor(id, c) in sinks[k])
  }

  ghost predicate SinksHoldCalls(sinks: seq<seq<Event>>, calls: Calls) {
    && (forall k :: 0 <= k < |sinks| ==> SinkHoldsCalls(sinks[k], k, calls))
    && (forall id :: id in calls ==> DeliveredOf(sinks, id, calls[id]))
  }

  ghost predicate CallsOk(setting: Setting, uses: UseLog, recordings: SlotLog, metas: map<nat, Meta>,
                          now: int, calls: Calls)
    requires setting.wallclock.Valid()
  {
    && (forall id :: id in calls ==> SlotDetermined(recordings, now, calls[id]))
    && (forall id :: id in calls ==> Decided(setting, uses, now, calls[id]))
    && (forall id :: id in calls ==> MetaOf(setting, metas, id, calls[id]))
  }

  ghost predicate Inv(setting: Setting, s: State)
    requires setting.wallclock.Valid()
  {
    && CachesRefineLogs(s.dup, s.slots, s.uses, s.recordings, s.now)
    && GatesExact(s.uses, s.gates)
    && UsesAreCalls(setting, s.uses, s.gates, s.calls)
    && RecordingsAreCalls(s.recordings, s.recorders, s.calls)
    && CallsOk(setting, s.uses, s.recordings, s.metas, s.now, s.calls)
    && SinksHoldCalls(s.sinks, s.calls)
  }

  // ----- stability of each part -----

  lemma SlotStable(recordings: SlotLog, recordings': SlotLog, now: int, now': int, c: Call)
    requires SlotDetermined(recordings, now, c) && recordings <= recordings' && now <= now'
    ensures SlotDetermined(recordings', now', c)
  {
    if Rank(c.pc) >= 2 { assert recordings'[..c.placement] == recordings[..c.placement]; }
  }

  lemma DecidedStable(setting: Setting, uses: UseLog, uses': UseLog, now: int, now': int, c: Call)
    requires setting.wallclock.Valid() && Decided(setting, uses, now, c) && uses <= uses' && now <= now'
    requires MadeUse(setting, c) ==> c.arrival <= |uses|
    ensures Decided(setting, uses', now', c)
  {
  }

  /** Calls other than `id` keep what is said of them; `id` must be given its own. */
  lemma CallsStable(setting: Setting, s: State, s': State, id: nat)
    requires setting.wallclock.Valid() && Inv(setting, s)
    requires s.uses <= s'.uses && s.recordings <= s'.recordings && s.now <= s'.now
    requires forall o :: o in s'.calls && o != id ==> o in s.calls && s'.calls[o] == s.calls[o]
    requires forall o :: o in s.metas && o != id ==> o in s'.metas && s'.metas[o] == s.metas[o]
    requires id in s'.calls ==>
      && SlotDetermined(s'.recordings, s'.now, s'.calls[id])
      && Decided(setting, s'.uses, s'.now, s'.calls[id])
      && MetaOf(setting, s'.metas, id, s'.calls[id])
    ensures CallsOk(setting, s'.uses, s'.recordings, s'.metas, s'.now, s'.calls)
  {
    forall o | o in s'.calls && o != id
      ensures SlotDetermined(s'.recordings, s'.now, s'.calls[o])
      ensures Decided(setting, s'.uses, s'.now, s'.calls[o])
      ensures MetaOf(setting, s'.metas, o, s'.calls[o])
    {
      SlotStable(s.recordings, s'.recordings, s.now, s'.now, s.calls[o]);
      if MadeUse(setting, s.calls[o]) { assert UseOf(setting, s.uses, s.gates, o, s.calls[o]); }
      DecidedStable(setting, s.uses, s'.uses, s.now, s'.now, s.calls[o]);
      assert MetaOf(setting, s.metas, o, s.calls[o]);
    }
  }

  /** A call that makes no use, or no recording, in this step leaves the histories' account true. */
  lemma UsesStable(setting: Setting, uses: UseLog, gates: seq<Gate>, calls: Calls, id: nat, c: Call)
    requires UsesAreCalls(setting, uses, gates, calls)
    requires id in calls && MadeUse(setting, c) == MadeUse(setting, calls[id])
    requires c.raw == calls[id].raw
    requires MadeUse(setting, c) ==> c.arrival == calls[id].arrival && c.gateAt == calls[id].gateAt
    ensures UsesAreCalls(setting, uses, gates, calls[id := c])
  {
  }

  lemma RecordingsStable(recordings: SlotLog, recorders: seq<nat>, calls: Calls, id: nat, c: Call)
    requires RecordingsAreCalls(recordings, recorders, calls)
    requires id in calls && MadeRecording(c) == MadeRecording(calls[id])
    requires c.raw == calls[id].raw
    requires MadeRecording(c) ==> c.placement == calls[id].placement && c.placedAt == calls[id].placedAt
    ensures RecordingsAreCalls(recordings, recorders, calls[id := c])
  {
  }

  /** A call making its use, or its recording, extends the histories' account. */
  lemma UsesGrow(setting: Setting, uses: UseLog, gates: seq<Gate>, calls: Calls, id: nat, c: Call,
                 u: Use<DupKey, Time>, g: Gate)
    requires UsesAreCalls(setting, uses, gates, calls)
    requires id in calls && !MadeUse(setting, calls[id]) && MadeUse(setting, c)
    requires c.arrival == |uses| && g.call == id && u.key == KeyFor(setting, c.raw).value && u.at == c.gateAt
    ensures UsesAreCalls(setting, uses + [u], gates + [g], calls[id := c])
  {
  }

  lemma RecordingsGrow(recordings: SlotLog, recorders: seq<nat>, calls: Calls, id: nat, c: Call)
    requires RecordingsAreCalls(recordings, recorders, calls)
    requires id in calls && !MadeRecording(calls[id]) && MadeRecording(c) && c.placement == |recordings|
    ensures RecordingsAreCalls(recordings + [Use(c.raw.blockRoot, c.raw.slot, c.placedAt)], recorders + [id],
                               calls[id := c])
  {
  }

  /** A call that keeps its raw event, drift and deliveries leaves the sinks' account true. */
  lemma SinksStable(setting: Setting, s: State, id: nat, c: Call)
    requires setting.wallclock.Valid() && Inv(setting, s)
    requires id in s.calls ==>
      && c.raw == s.calls[id].raw && c.delivered == s.calls[id].delivered
      && (c.delivered > 0 ==> c.drift == s.calls[id].drift)
    requires DeliveredOf(s.sinks, id, c)
    ensures SinksHoldCalls(s.sinks, s.calls[id := c])
  {
    var calls := s.calls[id := c];
    forall k | 0 <= k < |s.sinks| ensures SinkHoldsCalls(s.sinks[k], k, calls) {
      assert SinkHoldsCalls(s.sinks[k], k, s.calls);
    }
  }

  // ----- preservation, step by step -----

  lemma CachesStable(s: State, s': State)
    requires CachesRefineLogs(s.dup, s.slots, s.uses, s.recordings, s.now) && s.now <= s'.now
    requires s'.dup == s.dup || exists k :: s'.dup == Evict(s.dup, k, s'.now)
    requires s'.slots == s.slots || exists k :: s'.slots == Evict(s.slots, k, s'.now)
    ensures CachesRefineLogs(s'.dup, s'.slots, s.uses, s.recordings, s'.now)
  {
  }

  /** Time passing and expired entries going leave everything said of the calls true. */
  lemma QuietStep(setting: Setting, s: State, s': State)
    requires setting.wallclock.Valid() && Inv(setting, s) && s.now <= s'.now
    requires s' == s.(now := s'.now, drift := s'.drift, dup := s'.dup, slots := s'.slots, counters := s'.counters)
    requires CachesRefineLogs(s'.dup, s'.slots, s'.uses, s'.recordings, s'.now)
    ensures Inv(setting, s')
  {
  }

  lemma EnvironmentStep(setting: Setting, s: State, a: Action)
    requires setting.wallclock.Valid() && Inv(setting, s) && !a.Advance? && !a.Enter?
    ensures Inv(setting, Apply(setting, s, a))
  {
    var s' := Apply(setting, s, a);
    CachesStable(s, s');
    QuietStep(setting, s, s');
  }

  lemma EnterKeepsHistories(setting: Setting, s: State, id: nat, c: Call)
    requires setting.wallclock.Valid() && Inv(setting, s) && id !in s.calls && Rank(c.pc) == 0
    ensures UsesAreCalls(setting, s.uses, s.gates, s.calls[id := c])
    ensures RecordingsAreCalls(s.recordings, s.recorders, s.calls[id := c])
  {
  }

  lemma EnterStep(setting: Setting, s: State, id: nat, raw: Raw)
    requires setting.wallclock.Valid() && Inv(setting, s) && id !in s.calls
    ensures Inv(setting, Update(s, id, NewCall(raw)))
  {
    var s', c := Update(s, id, NewCall(raw)), NewCall(raw);
    CallsStable(setting, s, s', id);
    EnterKeepsHistories(setting, s, id, c);
    SinksStable(setting, s, id, c);
  }

  /** What the invariant says of one call. */
  ghost predicate CallFacts(setting: Setting, s: State, id: nat, c: Call)
    requires setting.wallclock.Valid()
  {
    && SlotDetermined(s.recordings, s.now, c)
    && Decided(setting, s.uses, s.now, c)
    && MetaOf(setting, s.metas, id, c)
    && DeliveredOf(s.sinks, id, c)
    && (MadeUse(setting, c) ==> c.arrival <= |s.uses|)
  }

  lemma FactsOf(setting: Setting, s: State, id: nat)
    requires setting.wallclock.Valid() && Inv(setting, s) && id in s.calls
    ensures CallFacts(setting, s, id, s.calls[id])
  {
  }

  /** The difference between two states is one call's record and metadata, and the counters. */
  ghost predicate LocalStep(s: State, s': State, id: nat) {
    && id in s.calls && id in s'.calls
    && s' == s.(calls := s.calls[id := s'.calls[id]], metas := s'.metas, counters := s'.counters)
    && (forall o :: o in s.metas && o != id ==> o in s'.metas && s'.metas[o] == s.metas[o])
  }

  lemma LocalStepKeepsInv(setting: Setting, s: State, s': State, id: nat)
    requires setting.wallclock.Valid() && Inv(setting, s) && LocalStep(s, s', id)
    requires CallFacts(setting, s', id, s'.calls[id])
    requires var c, c' := s.calls[id], s'.calls[id];
             && c'.raw == c.raw && c'.delivered == c.delivered && (c'.delivered > 0 ==> c'.drift == c.drift)
             && MadeUse(setting, c') == MadeUse(setting, c) && MadeRecording(c') == MadeRecording(c)
             && (MadeUse(setting, c') ==> c'.arrival == c.arrival && c'.gateAt == c.gateAt)
             && (MadeRecording(c') ==> c'.placement == c.placement && c'.placedAt == c.placedAt)
    ensures Inv(setting, s')
  {
    CallsStable(setting, s, s', id);
    UsesStable(setting, s.uses, s.gates, s.calls, id, s'.calls[id]);
    RecordingsStable(s.recordings, s.recorders, s.calls, id, s'.calls[id]);
    SinksStable(setting, s, id, s'.calls[id]);
  }

  lemma MeterKeepsCall(setting: Setting, s: State, id: nat, c: Call)
    requires setting.wallclock.Valid() && CallFacts(setting, s, id, c) && c.pc == Entered
    ensures var s' := MeterStep(s, id, c); CallFacts(setting, s', id, s'.calls[id])
  {
  }

  lemma MeterKeepsInv(setting: Setting, s: State, id: nat)
    requires setting.wallclock.Valid() && Inv(setting, s) && id in s.calls && s.calls[id].pc == Entered
    ensures Inv(setting, MeterStep(s, id, s.calls[id]))
  {
    FactsOf(setting, s, id);
    MeterKeepsCall(setting, s, id, s.calls[id]);
    LocalStepKeepsInv(setting, s, MeterStep(s, id, s.calls[id]), id);
  }

  lemma PlacedCallFacts(setting: Setting, s: State, id: nat, c: Call)
    requires setting.wallclock.Valid() && CallFacts(setting, s, id, c) && c.pc == Metered
    requires Tracks(s.slots, s.recordings, Fixed(BLOCK_SLOT_TTL), s.now)
    ensures CallFacts(setting, s, id, PlacedCall(s, c))
  {
    assert s.recordings[..|s.recordings|] == s.recordings;
    if c.raw.Feeds() {
      ResolveRefinesLog(s.slots, s.recordings, c.raw.blockRoot, c.raw.slot, s.now);
    }
    assert SlotDetermined(s.recordings, s.now, PlacedCall(s, c));
  }

  lemma RecordKeepsInv(setting: Setting, s: State, id: nat)
    requires setting.wallclock.Valid() && Inv(setting, s) && id in s.calls && s.calls[id].pc == Metered
    requires CallFacts(setting, s, id, PlacedCall(s, s.calls[id])) && MadeRecording(PlacedCall(s, s.calls[id]))
    ensures Inv(setting, PlaceStep(s, id, s.calls[id]))
  {
    var c, c', s' := s.calls[id], PlacedCall(s, s.calls[id]), PlaceStep(s, id, s.calls[id]);
    ResolveRefinesLog(s.slots, s.recordings, c.raw.blockRoot, c.raw.slot, s.now);
    SlotStable(s.recordings, s'.recordings, s.now, s'.now, c');
    RecordingsGrow(s.recordings, s.recorders, s.calls, id, c');
    UsesStable(setting, s.uses, s.gates, s.calls, id, c');
    CallsStable(setting, s, s', id);
    SinksStable(setting, s, id, c');
  }

  lemma PlaceKeepsInv(setting: Setting, s: State, id: nat)
    requires setting.wallclock.Valid() && Inv(setting, s) && id in s.calls && s.calls[id].pc == Metered
    ensures Inv(setting, PlaceStep(s, id, s.calls[id]))
  {
    FactsOf(setting, s, id);
    PlacedCallFacts(setting, s, id, s.calls[id]);
    if MadeRecording(PlacedCall(s, s.calls[id])) {
      RecordKeepsInv(setting, s, id);
    } else {
      LocalStepKeepsInv(setting, s, PlaceStep(s, id, s.calls[id]), id);
    }
  }

  /** GetOrSet hits exactly when the log shows a use within the TTL, and logs this one. */
  lemma GateKeepsCaches(s: State, key: DupKey, stamp: Time)
    requires Tracks(s.dup, s.uses, TtlOf, s.now)
    ensures Live(s.dup, key, s.now) <==> SeenBefore(s.uses, |s.uses|, key, s.now)
    ensures Tracks(GetOrSet(s.dup, key, stamp, TtlOf(key), s.now),
                   s.uses + [Use(key, Settled(s.dup, key, stamp, s.now), s.now)], TtlOf, s.now)
  {
    var ttl := TtlOf;
    LiveIffSeen(s.dup, s.uses, ttl, s.now, key);
    assert s.uses[..|s.uses|] == s.uses;
    PutTracks(s.dup, s.uses, ttl, s.now, key, Settled(s.dup, key, stamp, s.now));
  }

  lemma GatesGrow(uses: UseLog, gates: seq<Gate>, u: Use<DupKey, Time>, g: Gate)
    requires GatesExact(uses, gates) && (g.passed <==> !SeenBefore(uses, |uses|, u.key, u.at))
    ensures GatesExact(uses + [u], gates + [g])
  {
    var uses', gates' := uses + [u], gates + [g];
    forall i | 0 <= i < |gates'| ensures gates'[i].passed <==> !SeenBefore(uses', i, uses'[i].key, uses'[i].at) {
      assert uses'[..i] == uses[..i];
      if i < |gates| { assert gates[i].passed <==> !SeenBefore(uses, i, uses[i].key, uses[i].at); }
    }
  }

  lemma RejectKeepsCall(setting: Setting, s: State, id: nat, c: Call)
    requires setting.wallclock.Valid() && CallFacts(setting, s, id, c) && c.pc == Placed
    requires KeyFor(setting, c.raw).None?
    ensures var s' := GateStep(setting, s, id, c); CallFacts(setting, s', id, s'.calls[id])
  {
  }

  lemma RejectKeepsInv(setting: Setting, s: State, id: nat)
    requires setting.wallclock.Valid() && Inv(setting, s) && id in s.calls && s.calls[id].pc == Placed
    requires KeyFor(setting, s.calls[id].raw).None?
    ensures Inv(setting, GateStep(setting, s, id, s.calls[id]))
  {
    FactsOf(setting, s, id);
    RejectKeepsCall(setting, s, id, s.calls[id]);
    LocalStepKeepsInv(setting, s, GateStep(setting, s, id, s.calls[id]), id);
  }

  lemma GateKeepsCall(setting: Setting, s: State, id: nat, c: Call)
    requires setting.wallclock.Valid() && CallFacts(setting, s, id, c) && c.pc == Placed
    requires KeyFor(setting, c.raw).Some?
    requires Live(s.dup, KeyFor(setting, c.raw).value, s.now)
             <==> SeenBefore(s.uses, |s.uses|, KeyFor(setting, c.raw).value, s.now)
    ensures var s' := GateStep(setting, s, id, c); CallFacts(setting, s', id, s'.calls[id])
  {
  }

  lemma GateKeepsLogs(setting: Setting, s: State, id: nat, c: Call)
    requires CachesRefineLogs(s.dup, s.slots, s.uses, s.recordings, s.now) && GatesExact(s.uses, s.gates)
    requires KeyFor(setting, c.raw).Some?
    ensures var key := KeyFor(setting, c.raw).value;
            Live(s.dup, key, s.now) <==> SeenBefore(s.uses, |s.uses|, key, s.now)
    ensures var s' := GateStep(setting, s, id, c);
            CachesRefineLogs(s'.dup, s'.slots, s'.uses, s'.recordings, s'.now) && GatesExact(s'.uses, s'.gates)
  {
    var s', key := GateStep(setting, s, id, c), KeyFor(setting, c.raw).value;
    GateKeepsCaches(s, key, UnixMilli(c.raw.timestampMs));
    GatesGrow(s.uses, s.gates, s'.uses[|s.uses|], s'.gates[|s.gates|]);
  }

  lemma GateKeepsHistories(setting: Setting, s: State, id: nat, c: Call)
    requires UsesAreCalls(setting, s.uses, s.gates, s.calls) && RecordingsAreCalls(s.recordings, s.recorders, s.calls)
    requires id in s.calls && c == s.calls[id] && c.pc == Placed && KeyFor(setting, c.raw).Some?
    ensures var s' := GateStep(setting, s, id, c);
            && UsesAreCalls(setting, s'.uses, s'.gates, s'.calls)
            && RecordingsAreCalls(s'.recordings, s'.recorders, s'.calls)
  {
    var s' := GateStep(setting, s, id, c);
    UsesGrow(setting, s.uses, s.gates, s.calls, id, GatedCall(setting, s, c), s'.uses[|s.uses|], s'.gates[|s.gates|]);
    RecordingsStable(s.recordings, s.recorders, s.calls, id, GatedCall(setting, s, c));
  }

  lemma GateKeepsInv(setting: Setting, s: State, id: nat)
    requires setting.wallclock.Valid() && Inv(setting, s) && id in s.calls && s.calls[id].pc == Placed
    requires KeyFor(setting, s.calls[id].raw).Some?
    ensures Inv(setting, GateStep(setting, s, id, s.calls[id]))
  {
    var c, s' := s.calls[id], GateStep(setting, s, id, s.calls[id]);
    FactsOf(setting, s, id);
    GateKeepsLogs(setting, s, id, c);
    GateKeepsCall(setting, s, id, c);
    GateKeepsHistories(setting, s, id, c);
    CallsStable(setting, s, s', id);
    SinksStable(setting, s, id, GatedCall(setting, s, c));
  }

  lemma AgeKeepsCall(setting: Setting, s: State, id: nat, c: Call)
    requires setting.wallclock.Valid() && CallFacts(setting, s, id, c) && c.pc == Gated
    ensures var s' := AgeStep(setting, s, id, c); CallFacts(setting, s', id, s'.calls[id])
  {
  }

  lemma AgeKeepsInv(setting: Setting, s: State, id: nat)
    requires setting.wallclock.Valid() && Inv(setting, s) && id in s.calls && s.calls[id].pc == Gated
    ensures Inv(setting, AgeStep(setting, s, id, s.calls[id]))
  {
    FactsOf(setting, s, id);
    AgeKeepsCall(setting, s, id, s.calls[id]);
    LocalStepKeepsInv(setting, s, AgeStep(setting, s, id, s.calls[id]), id);
  }

  lemma ExportKeepsMeta(setting: Setting, metas: map<nat, Meta>, sinks: nat, id: nat, c: Call)
    requires setting.wallclock.Valid() && c.raw.Parsed() && Rank(c.pc) >= 4 && MetaOf(setting, metas, id, c)
    ensures var metas' := ExportingMetas(setting, metas, id, c);
            && MetaOf(setting, metas', id, ExportingCall(sinks, c))
            && (forall o :: o in metas && o != id ==> o in metas' && metas'[o] == metas[o])
  {
  }

  /** Exporting leaves the call's part in the histories as it is. */
  lemma ExportKeepsHistories(setting: Setting, s: State, id: nat, c: Call)
    requires UsesAreCalls(setting, s.uses, s.gates, s.calls) && RecordingsAreCalls(s.recordings, s.recorders, s.calls)
    requires id in s.calls && c == s.calls[id] && Rank(c.pc) >= 4
    ensures UsesAreCalls(setting, s.uses, s.gates, s.calls[id := ExportingCall(|s.sinks|, c)])
    ensures RecordingsAreCalls(s.recordings, s.recorders, s.calls[id := ExportingCall(|s.sinks|, c)])
  {
    UsesStable(setting, s.uses, s.gates, s.calls, id, ExportingCall(|s.sinks|, c));
    RecordingsStable(s.recordings, s.recorders, s.calls, id, ExportingCall(|s.sinks|, c));
  }

  lemma ExportKeepsSinks(sinks: seq<seq<Event>>, calls: Calls, id: nat, c: Call)
    requires SinksHoldCalls(sinks, calls) && id in calls && c == calls[id] && c.raw.Parsed() && Rank(c.pc) >= 4
    requires Rank(c.pc) < 9 ==> c.outcome == Some(Exported)
    ensures SinksHoldCalls(ExportingSinks(sinks, id, c), calls[id := ExportingCall(|sinks|, c)])
  {
    var sinks', calls' := ExportingSinks(sinks, id, c), calls[id := ExportingCall(|sinks|, c)];
    assert DeliveredOf(sinks, id, c);
    forall k | 0 <= k < |sinks'| ensures SinkHoldsCalls(sinks'[k], k, calls') { SinkGrows(sinks, calls, id, c, k); }
    forall o | o in calls' ensures DeliveredOf(sinks', o, calls'[o]) {
      DeliveredGrows(sinks, calls, id, c, o);
    }
  }

  lemma SinkGrows(sinks: seq<seq<Event>>, calls: Calls, id: nat, c: Call, k: nat)
    requires SinksHoldCalls(sinks, calls) && id in calls && c == calls[id] && c.raw.Parsed() && Rank(c.pc) >= 4
    requires k < |sinks|
    ensures SinkHoldsCalls(ExportingSinks(sinks, id, c)[k], k, calls[id := ExportingCall(|sinks|, c)])
  {
    assert SinkHoldsCalls(sinks[k], k, calls);
    var calls' := calls[id := ExportingCall(|sinks|, c)];
    assert SinkHoldsCalls(sinks[k], k, calls');
    if c.pc == Delivering && c.delivered == k {
      assert ExportingSinks(sinks, id, c)[k] == sinks[k] + [EventFor(id, c)];
      assert EventFor(id, c) == EventFor(id, calls'[id]);
    } else {
      assert ExportingSinks(sinks, id, c)[k] == sinks[k];
    }
  }

  lemma DeliveredGrows(sinks: seq<seq<Event>>, calls: Calls, id: nat, c: Call, o: nat)
    requires SinksHoldCalls(sinks, calls) && id in calls && c == calls[id] && c.raw.Parsed() && Rank(c.pc) >= 4
    requires Rank(c.pc) < 9 ==> c.outcome == Some(Exported)
    requires o in calls
    ensures DeliveredOf(ExportingSinks(sinks, id, c), o, calls[id := ExportingCall(|sinks|, c)][o])
  {
    var sinks', c' := ExportingSinks(sinks, id, c), calls[id := ExportingCall(|sinks|, c)][o];
    assert DeliveredOf(sinks, o, calls[o]);
    if calls[o].raw.Parsed() {
      forall k | 0 <= k < c'.delivered ensures EventFor(o, c') in sinks'[k] {
        if k < calls[o].delivered {
          assert EventFor(o, c') in sinks[k];
        } else {
          assert sinks'[k][|sinks[k]|] == EventFor(o, c');
        }
      }
    }
  }

  lemma ExportInv(setting: Setting, s: State, id: nat)
    requires setting.wallclock.Valid() && Inv(setting, s) && id in s.calls
    requires s.calls[id].raw.Parsed() && Rank(s.calls[id].pc) >= 4
    ensures Inv(setting, ExportStep(setting, s, id, s.calls[id]))
  {
    var c, s' := s.calls[id], ExportStep(setting, s, id, s.calls[id]);
    FactsOf(setting, s, id);
    ExportKeepsMeta(setting, s.metas, |s.sinks|, id, c);
    ExportKeepsSinks(s.sinks, s.calls, id, c);
    ExportKeepsHistories(setting, s, id, c);
    ExportKeepsCall(setting, s, id, c);
    CallsStable(setting, s, s', id);
  }

  lemma ExportKeepsCall(setting: Setting, s: State, id: nat, c: Call)
    requires setting.wallclock.Valid() && CallFacts(setting, s, id, c) && c.raw.Parsed() && Rank(c.pc) >= 4
    ensures var c' := ExportingCall(|s.sinks|, c);
            SlotDetermined(s.recordings, s.now, c') && Decided(setting, s.uses, s.now, c')
  {
  }

  lemma InitInv(setting: Setting, sinks: nat, start: Time)
    requires setting.wallclock.Valid()
    ensures Inv(setting, Init(sinks, start))
  {
  }

  lemma AdvanceInv(setting: Setting, s: State, id: nat)
    requires setting.wallclock.Valid() && Inv(setting, s) && id in s.calls
    ensures Inv(setting, AdvanceStep(setting, s, id))
  {
    var c := s.calls[id];
    match c.pc
    case Entered => MeterKeepsInv(setting, s, id);
    case Metered => PlaceKeepsInv(setting, s, id);
    case Placed =>
      if KeyFor(setting, c.raw).Some? { GateKeepsInv(setting, s, id); } else { RejectKeepsInv(setting, s, id); }
    case Gated => AgeKeepsInv(setting, s, id);
    case _ => if c.raw.Parsed() { ExportInv(setting, s, id); }
  }

  lemma StepInv(setting: Setting, s: State, a: Action)
    requires setting.wallclock.Valid() && Inv(setting, s)
    ensures Inv(setting, Apply(setting, s, a))
  {
    match a
    case Enter(id, raw) => if id !in s.calls { EnterStep(setting, s, id, raw); }
    case Advance(id) => if id in s.calls { AdvanceInv(setting, s, id); }
    case _ => EnvironmentStep(setting, s, a);
  }

  /** Every interleaving, of any length, keeps the invariant. */
  lemma {:induction false} RunInv(setting: Setting, s: State, actions: seq<Action>)
    requires setting.wallclock.Valid() && Inv(setting, s)
    ensures Inv(setting, Run(setting, s, actions))
  {
    if actions != [] {
      RunInv(setting, s, actions[..|actions| - 1]);
      StepInv(setting, Run(setting, s, actions[..|actions| - 1]), actions[|actions| - 1]);
    }
  }
}

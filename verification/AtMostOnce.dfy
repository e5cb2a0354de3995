/** How often one observation can be exported, over runs of any length and interleaving. */
module AtMostOnce {
  import opened Base
  import opened Chain
  import opened Consequences
  import opened Keys
  import opened Events
  import opened Machine
  import opened Invariants
  import opened Promises
  import opened Sequential
  import Serial

  ghost predicate ExportOf(s: State, same: Raw -> bool, id: nat) {
    id in s.calls && s.calls[id].outcome == Some(Exported) && same(s.calls[id].raw)
  }

  /** The exported call, of those carrying such an event, that reached its duplicate cache first. */
  ghost predicate FirstOf(s: State, same: Raw -> bool, id: nat) {
    ExportOf(s, same, id) && forall o :: ExportOf(s, same, o) ==> s.calls[id].arrival <= s.calls[o].arrival
  }

  /** The first export's slot is at most `lead` slots ahead of the clock at its cache gate. */
  ghost predicate FirstLeads(setting: Setting, s: State, same: Raw -> bool, lead: nat)
    requires setting.wallclock.Valid()
  {
    forall id :: FirstOf(s, same, id) ==>
      var gate := setting.wallclock.SlotAt(s.calls[id].gateAt);
      gate.Some? && s.calls[id].slot <= gate.value + lead
  }

  ghost predicate ExportedOnce(s: State, same: Raw -> bool) {
    forall a, b :: ExportOf(s, same, a) && ExportOf(s, same, b) ==> a == b
  }

  /** In every sink, at most one event of that sort. */
  ghost predicate DeliveredOnce(s: State, same: Raw -> bool) {
    forall k, i, j :: 0 <= k < |s.sinks| && 0 <= i < j < |s.sinks[k]| ==>
      !(same(s.sinks[k][i].raw) && same(s.sinks[k][j].raw))
  }

  /** Where to look for doubles: among the calls decided to be exported, or in the sinks. */
  datatype View = Exports | Deliveries

  ghost predicate OnceIn(s: State, same: Raw -> bool, view: View) {
    match view case Exports => ExportedOnce(s, same) case Deliveries => DeliveredOnce(s, same)
  }

  /** The events of `same` share one duplicate entry and one age-checked slot. */
  ghost predicate OneEntry(setting: Setting, s: State, same: Raw -> bool, key: DupKey, slot: u64) {
    forall id :: ExportOf(s, same, id) ==>
      var raw := s.calls[id].raw;
      && KeyFor(setting, raw) == Some(key) && s.calls[id].slot == slot
      && raw.HasAgeCutoff() && (raw.HasBlockTiming() ==> slot != 0)
  }

  /** An exported call passed both gates: its key was unused, and its slot not too old. */
  lemma ExportPassed(setting: Setting, s: State, id: nat)
    requires setting.wallclock.Valid() && Inv(setting, s) && id in s.calls
    requires s.calls[id].outcome == Some(Exported)
    ensures var c := s.calls[id];
            && MadeUse(setting, c) && UseOf(setting, s.uses, s.gates, id, c) && s.gates[c.arrival].passed
            && c.gateAt <= c.ageAt && AgeCheck(setting, c.raw, c.slot, c.ageAt) == Exported
  {
    var c := s.calls[id];
    assert Decided(setting, s.uses, s.now, c);
    assert Rank(c.pc) >= 4;
    assert UseOf(setting, s.uses, s.gates, id, c);
  }

  /** Two accepted calls that brought the same observation and both passed GetOrSet did so further apart than
      it is remembered, in every interleaving: within that time at most one handler passes. */
  lemma PassesAreApart(setting: Setting, s: State, a: nat, b: nat)
    requires setting.wallclock.Valid() && Reachable(setting, s) && a in s.calls && b in s.calls
    requires ReachedGate(setting, s.calls[a]) && ReachedGate(setting, s.calls[b])
    requires SameObservation(setting, s.calls[a].raw, s.calls[b].raw) && s.calls[a].arrival < s.calls[b].arrival
    ensures var i, j := s.calls[a].arrival, s.calls[b].arrival;
            && j < |s.gates| && s.gates[i].call == a && s.gates[j].call == b
            && (s.gates[i].passed && s.gates[j].passed ==>
                  s.calls[b].gateAt - s.calls[a].gateAt > Window(s.calls[b].raw))
  {
    ReachableInv(setting, s);
    DroppedWasSeen(setting, s, a);
    DroppedWasSeen(setting, s, b);
    assert EarlierUse(setting, s.calls[a], s.calls[b])
           <==> s.calls[b].gateAt - s.calls[a].gateAt <= Window(s.calls[b].raw);
  }

  lemma ApartIn(setting: Setting, s: State, i: nat, j: nat)
    requires setting.wallclock.Valid() && Inv(setting, s)
    ensures i < j < |s.gates| && s.uses[i].key == s.uses[j].key && s.gates[j].passed
            ==> s.uses[j].at - s.uses[i].at > TtlOf(s.uses[j].key)
  {
    if i < j < |s.gates| && s.uses[i].key == s.uses[j].key && s.gates[j].passed {
      assert !SeenBefore(s.uses, j, s.uses[j].key, s.uses[j].at);
      assert s.uses[..j][i] == s.uses[i];
    }
  }

  /** Whatever has been exported later than `a` under the same entry came after the entry expired,
      which is too late for a slot that led the clock by at most `lead` at `a`'s gate. */
  lemma NoLaterUse(setting: Setting, s: State, a: nat, b: nat, key: DupKey, slot: u64, lead: nat)
    requires setting.wallclock.Valid() && Inv(setting, s)
    requires a in s.calls && b in s.calls && s.calls[a].arrival < s.calls[b].arrival
    requires s.calls[a].outcome == Some(Exported) && s.calls[b].outcome == Some(Exported)
    requires KeyFor(setting, s.calls[a].raw) == Some(key) && KeyFor(setting, s.calls[b].raw) == Some(key)
    requires s.calls[b].slot == slot && s.calls[b].raw.HasAgeCutoff() && (s.calls[b].raw.HasBlockTiming() ==> slot != 0)
    requires var gate := setting.wallclock.SlotAt(s.calls[a].gateAt); gate.Some? && slot <= gate.value + lead
    ensures TtlOf(key) < (17 + lead) * setting.wallclock.SlotDuration()
  {
    var ca, cb := s.calls[a], s.calls[b];
    ExportPassed(setting, s, a);
    ExportPassed(setting, s, b);
    ApartIn(setting, s, ca.arrival, cb.arrival);
    assert cb.gateAt - ca.gateAt > TtlOf(key);
    AcceptanceWindow(setting.wallclock, slot, ca.gateAt, cb.ageAt, lead);
  }

  /** By type: if the same observation is exported once more, its slot having led the clock by at most `lead`
      at the first one's gate, then it is remembered for less than 17 + lead slots. */
  lemma NoLaterExport(setting: Setting, s: State, a: nat, b: nat, lead: nat)
    requires setting.wallclock.Valid() && Inv(setting, s)
    requires a in s.calls && b in s.calls && s.calls[a].arrival < s.calls[b].arrival
    requires s.calls[a].outcome == Some(Exported) && s.calls[b].outcome == Some(Exported)
    requires SameObservation(setting, s.calls[a].raw, s.calls[b].raw)
    requires s.calls[b].raw.Gossip? || (BlockType(s.calls[b].raw) && s.calls[b].slot != 0)
    requires var gate := setting.wallclock.SlotAt(s.calls[a].gateAt);
             gate.Some? && s.calls[b].slot <= gate.value + lead
    ensures Window(s.calls[b].raw) < (17 + lead) * (setting.wallclock.secondsPerSlot * 1_000_000_000)
  {
    var ra, rb := s.calls[a].raw, s.calls[b].raw;
    ExportPassed(setting, s, a);
    ExportPassed(setting, s, b);
    KeysByType(setting, ra);
    KeysByType(setting, rb);
    KeysTellObservations(setting, ra, rb);
    WindowByType(rb);
    NoLaterUse(setting, s, a, b, KeyFor(setting, rb).value, s.calls[b].slot, lead);
  }

  lemma {:induction false} FirstExists(s: State, same: Raw -> bool, id: nat) returns (first: nat)
    requires ExportOf(s, same, id)
    ensures FirstOf(s, same, first)
    decreases s.calls[id].arrival
  {
    if FirstOf(s, same, id) { return id; }
    var o :| ExportOf(s, same, o) && s.calls[o].arrival < s.calls[id].arrival;
    first := FirstExists(s, same, o);
  }

  lemma Once(setting: Setting, s: State, same: Raw -> bool, key: DupKey, slot: u64, lead: nat)
    requires setting.wallclock.Valid() && Inv(setting, s)
    requires OneEntry(setting, s, same, key, slot) && FirstLeads(setting, s, same, lead)
    requires (17 + lead) * setting.wallclock.SlotDuration() <= TtlOf(key)
    ensures ExportedOnce(s, same) && DeliveredOnce(s, same)
  {
    forall a, b | ExportOf(s, same, a) && ExportOf(s, same, b) ensures a == b {
      var first := FirstExists(s, same, a);
      OnlyFirst(setting, s, same, key, slot, lead, first, a);
      OnlyFirst(setting, s, same, key, slot, lead, first, b);
    }
    OnceDelivered(setting, s, same);
  }

  lemma OnlyFirst(setting: Setting, s: State, same: Raw -> bool, key: DupKey, slot: u64, lead: nat, first: nat, o: nat)
    requires setting.wallclock.Valid() && Inv(setting, s)
    requires OneEntry(setting, s, same, key, slot) && FirstLeads(setting, s, same, lead)
    requires (17 + lead) * setting.wallclock.SlotDuration() <= TtlOf(key)
    requires FirstOf(s, same, first) && ExportOf(s, same, o)
    ensures o == first
  {
    ExportPassed(setting, s, first);
    ExportPassed(setting, s, o);
    if s.calls[first].arrival < s.calls[o].arrival {
      NoLaterUse(setting, s, first, o, key, slot, lead);
    }
  }

  lemma OnceDelivered(setting: Setting, s: State, same: Raw -> bool)
    requires setting.wallclock.Valid() && Inv(setting, s) && ExportedOnce(s, same)
    ensures DeliveredOnce(s, same)
  {
    forall k, i, j | 0 <= k < |s.sinks| && 0 <= i < j < |s.sinks[k]|
      ensures !(same(s.sinks[k][i].raw) && same(s.sinks[k][j].raw))
    {
      assert SinkHoldsCalls(s.sinks[k], k, s.calls);
      var a, b := s.sinks[k][i].call, s.sinks[k][j].call;
      assert DeliveredOf(s.sinks, a, s.calls[a]) && DeliveredOf(s.sinks, b, s.calls[b]);
      if same(s.sinks[k][i].raw) && same(s.sinks[k][j].raw) {
        assert ExportOf(s, same, a) && ExportOf(s, same, b);
      }
    }
  }

  // ----- data column completions -----

  function Completion(root: string, column: u64): Raw -> bool {
    (r: Raw) => r.DataColumnCompleted? && r.blockRoot == root && r.columnIndex == column
  }

  /** Every exported completion of the column names the same known slot. */
  ghost predicate CompletionSlot(s: State, root: string, column: u64, slot: u64) {
    slot != 0 && forall id :: ExportOf(s, Completion(root, column), id) ==> s.calls[id].raw.slot == slot
  }

  lemma CompletionOneEntry(setting: Setting, s: State, root: string, column: u64, slot: u64)
    requires setting.wallclock.Valid() && Inv(setting, s) && CompletionSlot(s, root, column, slot)
    ensures OneEntry(setting, s, Completion(root, column),
                     DupKey(DataColumnsCompleted, CompletionKey(root, column)), slot)
  {
  }

  /** No run exports a (root, column) completion twice, given that it names one known slot at most
      `lead` slots ahead of the clock when first exported. */
  ghost predicate CompletionsSafe(setting: Setting, lead: nat, view: View)
    requires setting.wallclock.Valid()
  {
    forall sinks: nat, start: Time, actions, root, column, slot ::
      CompletionSafeIn(setting, Run(setting, Init(sinks, start), actions), root, column, slot, lead, view)
  }

  ghost predicate CompletionSafeIn(setting: Setting, s: State, root: string, column: u64, slot: u64, lead: nat,
                                   view: View)
    requires setting.wallclock.Valid()
  {
    CompletionSlot(s, root, column, slot) && FirstLeads(setting, s, Completion(root, column), lead)
    ==> OnceIn(s, Completion(root, column), view)
  }

  /** The 7 minute TTL is long enough exactly when it covers 17 + lead slots. */
  lemma CompletionsSafeIff(setting: Setting, lead: nat, view: View)
    requires setting.wallclock.Valid()
    ensures CompletionsSafe(setting, lead, view) <==> (17 + lead) * setting.wallclock.secondsPerSlot <= 420
  {
    if (17 + lead) * setting.wallclock.secondsPerSlot <= 420 {
      WindowFits(setting, lead);
      forall sinks: nat, start: Time, actions, root, column, slot
        ensures CompletionSafeIn(setting, Run(setting, Init(sinks, start), actions), root, column, slot, lead, view)
      {
        var s := Run(setting, Init(sinks, start), actions);
        InitInv(setting, sinks, start);
        RunInv(setting, Init(sinks, start), actions);
        if CompletionSlot(s, root, column, slot) && FirstLeads(setting, s, Completion(root, column), lead) {
          CompletionOneEntry(setting, s, root, column, slot);
          Once(setting, s, Completion(root, column), DupKey(DataColumnsCompleted, CompletionKey(root, column)),
               slot, lead);
        }
      }
    } else {
      var slot := WitnessSlot(lead);
      var raw := DataColumnCompleted(0, slot, "", 0, "EL", "");
      var s := TwiceExported(setting, raw, lead);
      TwoExportsLead(setting, s, raw, lead, Completion("", 0));
      assert !CompletionSafeIn(setting, s, "", 0, slot, lead, view);
    }
  }

  /** At 12 second slots: safe for leads up to 18 slots and no further. */
  lemma CompletionsAtTwelveSeconds(setting: Setting, lead: nat, view: View)
    requires setting.wallclock.Valid() && setting.wallclock.secondsPerSlot == 12
    ensures CompletionsSafe(setting, lead, view) <==> lead <= 18
  {
    SlotsInTtl(lead, 12);
    CompletionsSafeWhen(setting, lead, lead <= 18, view);
  }

  lemma CompletionsSafeWhen(setting: Setting, lead: nat, fits: bool, view: View)
    requires setting.wallclock.Valid() && (fits <==> (17 + lead) * setting.wallclock.secondsPerSlot <= 420)
    ensures CompletionsSafe(setting, lead, view) <==> fits
  {
    CompletionsSafeIff(setting, lead, view);
  }

  lemma SlotsInTtl(lead: nat, seconds: nat)
    ensures seconds == 12 ==> ((17 + lead) * seconds <= 420 <==> lead <= 18)
    ensures lead == 0 ==> ((17 + lead) * seconds <= 420 <==> seconds <= 24)
  {
  }

  /** For events that never lead the clock: safe for slots of up to 24 seconds and no longer. */
  lemma CompletionsWithoutLead(setting: Setting, view: View)
    requires setting.wallclock.Valid()
    ensures CompletionsSafe(setting, 0, view) <==> setting.wallclock.secondsPerSlot <= 24
  {
    SlotsInTtl(0, setting.wallclock.secondsPerSlot);
    CompletionsSafeWhen(setting, 0, setting.wallclock.secondsPerSlot <= 24, view);
  }

  lemma WindowFits(setting: Setting, lead: nat)
    requires setting.wallclock.Valid()
    ensures (17 + lead) * setting.wallclock.secondsPerSlot <= 420
            <==> (17 + lead) * setting.wallclock.SlotDuration() <= CONSENSUS_TTL
  {
  }

  // ----- gossip events -----

  function Identical(raw: Raw): Raw -> bool { (r: Raw) => r == raw }

  ghost predicate GossipSafe(setting: Setting, kind: GossipKind, lead: nat, view: View)
    requires setting.wallclock.Valid()
  {
    forall sinks: nat, start: Time, actions, raw: Raw ::
      raw.Gossip? && raw.kind == kind ==>
        GossipSafeIn(setting, Run(setting, Init(sinks, start), actions), raw, lead, view)
  }

  ghost predicate GossipSafeIn(setting: Setting, s: State, raw: Raw, lead: nat, view: View)
    requires setting.wallclock.Valid()
  {
    FirstLeads(setting, s, Identical(raw), lead) ==> OnceIn(s, Identical(raw), view)
  }

  lemma UnhashedNeverExported(setting: Setting, s: State, raw: Raw)
    requires setting.wallclock.Valid() && Inv(setting, s) && KeyFor(setting, raw).None?
    ensures ExportedOnce(s, Identical(raw))
  {
  }

  lemma GossipOneEntry(setting: Setting, s: State, raw: Raw, key: DupKey)
    requires setting.wallclock.Valid() && Inv(setting, s) && raw.Gossip? && KeyFor(setting, raw) == Some(key)
    ensures OneEntry(setting, s, Identical(raw), key, raw.slot)
  {
  }

  lemma GossipOnce(setting: Setting, s: State, raw: Raw, lead: nat)
    requires setting.wallclock.Valid() && Inv(setting, s) && raw.Gossip?
    requires FirstLeads(setting, s, Identical(raw), lead)
    requires (17 + lead) * setting.wallclock.secondsPerSlot <= 420
    ensures ExportedOnce(s, Identical(raw)) && DeliveredOnce(s, Identical(raw))
  {
    match KeyFor(setting, raw)
    case None =>
      UnhashedNeverExported(setting, s, raw);
      OnceDelivered(setting, s, Identical(raw));
    case Some(key) =>
      GossipOneEntry(setting, s, raw, key);
      WindowFits(setting, lead);
      Once(setting, s, Identical(raw), key, raw.slot, lead);
  }

  /** Some event of the kind, in the slot that shows the bound tight, can be hashed. */
  ghost predicate WitnessHashes(setting: Setting, kind: GossipKind, lead: nat) {
    exists raw: Raw :: IsWitness(setting, raw, kind, lead)
  }

  predicate IsWitness(setting: Setting, raw: Raw, kind: GossipKind, lead: nat) {
    raw.Gossip? && raw.kind == kind && raw.slot == WitnessSlot(lead) && setting.hash(raw).Some?
  }

  /** The same bound governs the gossip types, slot 0 included, for each identical raw event. Of the hash
      only determinism is used, and, to exhibit a double export, that some event can be hashed at all. */
  lemma GossipSafeIff(setting: Setting, kind: GossipKind, lead: nat, view: View)
    requires setting.wallclock.Valid()
    ensures (17 + lead) * setting.wallclock.secondsPerSlot <= 420 ==> GossipSafe(setting, kind, lead, view)
    ensures WitnessHashes(setting, kind, lead) ==>
              (GossipSafe(setting, kind, lead, view) <==> (17 + lead) * setting.wallclock.secondsPerSlot <= 420)
  {
    if (17 + lead) * setting.wallclock.secondsPerSlot <= 420 {
      GossipSafeWithin(setting, kind, lead, view);
    } else if WitnessHashes(setting, kind, lead) {
      var raw: Raw :| IsWitness(setting, raw, kind, lead);
      var s := TwiceExported(setting, raw, lead);
      TwoExportsLead(setting, s, raw, lead, Identical(raw));
      assert !GossipSafeIn(setting, s, raw, lead, view);
    }
  }

  lemma GossipSafeWithin(setting: Setting, kind: GossipKind, lead: nat, view: View)
    requires setting.wallclock.Valid() && (17 + lead) * setting.wallclock.secondsPerSlot <= 420
    ensures GossipSafe(setting, kind, lead, view)
  {
    forall sinks: nat, start: Time, actions, raw: Raw | raw.Gossip? && raw.kind == kind
      ensures GossipSafeIn(setting, Run(setting, Init(sinks, start), actions), raw, lead, view)
    {
      InitInv(setting, sinks, start);
      RunInv(setting, Init(sinks, start), actions);
      if FirstLeads(setting, Run(setting, Init(sinks, start), actions), Identical(raw), lead) {
        GossipOnce(setting, Run(setting, Init(sinks, start), actions), raw, lead);
      }
    }
  }

  // ----- the bound is tight -----

  /** The start of slot 1. */
  function WitnessStart(setting: Setting): Time
    requires setting.wallclock.Valid()
  {
    setting.wallclock.SlotStart(1)
  }

  /** A slot `lead` ahead of slot 1; a lead of 420 already outlasts the TTL. */
  function WitnessSlot(lead: nat): u64 { 1 + if lead <= 420 then lead else 420 }

  /** All of a call's clock readings at one instant. */
  function At(t: Time): Readings { Readings(t, t, t) }

  /** The event arrives at two instants; each call runs to its end before the next begins. */
  function Twice(raw: Raw, start: Time, end: Time): seq<Action> {
    Serial.Serve(1, 0, raw, At(start)) + Serial.Serve(1, 1, raw, At(end))
  }

  /** The event arrives twice, both times new to its cache and fresh. */
  lemma BothExported(setting: Setting, raw: Raw, start: Time, end: Time)
    requires setting.wallclock.Valid() && raw.Parsed() && !raw.UsesResolvedSlot()
    requires KeyFor(setting, raw).Some? && end - start > TtlOf(KeyFor(setting, raw).value)
    requires AgeCheck(setting, raw, raw.slot, start) == Exported && AgeCheck(setting, raw, raw.slot, end) == Exported
    ensures OutcomeOf(setting, EMPTY, raw, At(start)) == Exported
    ensures var w := Handle(setting, EMPTY, 0, raw, At(start));
            && OutcomeOf(setting, w, raw, At(end)) == Exported
            && var records := Handle(setting, w, 0, raw, At(end)).records;
               |records| == 2 && records[0].raw == raw && records[1].raw == raw
  {
    hide AgeCheck;
    var w := Handle(setting, EMPTY, 0, raw, At(start));
    assert !SeenIn(EMPTY.dup, raw, KeyOf(setting, raw).value, start);
    assert !SeenIn(w.dup, raw, KeyOf(setting, raw).value, end);
  }

  /** Calls 0 and 1 both exported `raw` to the one sink, each leading the clock by at most `lead`. */
  ghost predicate TwoExports(setting: Setting, s: State, raw: Raw, lead: nat)
    requires setting.wallclock.Valid()
  {
    && s.calls.Keys == {0, 1}
    && (forall id :: id in s.calls ==>
          && s.calls[id].raw == raw && s.calls[id].outcome == Some(Exported)
          && var gate := setting.wallclock.SlotAt(s.calls[id].gateAt);
             gate.Some? && s.calls[id].slot <= gate.value + lead)
    && |s.sinks| == 1 && |s.sinks[0]| == 2 && s.sinks[0][0].raw == raw && s.sinks[0][1].raw == raw
  }

  lemma TwoExportsLead(setting: Setting, s: State, raw: Raw, lead: nat, same: Raw -> bool)
    requires setting.wallclock.Valid() && TwoExports(setting, s, raw, lead) && same(raw)
    ensures FirstLeads(setting, s, same, lead) && !ExportedOnce(s, same) && !DeliveredOnce(s, same)
  {
    assert ExportOf(s, same, 0) && ExportOf(s, same, 1);
    assert same(s.sinks[0][0].raw) && same(s.sinks[0][1].raw);
  }

  lemma TwiceRuns(setting: Setting, raw: Raw, start: Time, end: Time, lead: nat)
    requires setting.wallclock.Valid() && raw.Parsed() && !raw.UsesResolvedSlot()
    requires KeyFor(setting, raw).Some? && end - start > TtlOf(KeyFor(setting, raw).value) > 0
    requires AgeCheck(setting, raw, raw.slot, start) == Exported && AgeCheck(setting, raw, raw.slot, end) == Exported
    requires var gate := setting.wallclock.SlotAt(start); gate.Some? && raw.slot <= gate.value + lead
    ensures TwoExports(setting, Run(setting, Init(1, start), Twice(raw, start, end)), raw, lead)
  {
    hide Run, Serial.Serve, Inv, Serial.Matches, Handle, OutcomeOf, AgeCheck;
    var init, first, second := Init(1, start), Serial.Serve(1, 0, raw, At(start)), Serial.Serve(1, 1, raw, At(end));
    BothExported(setting, raw, start, end);
    Serial.InitStands(setting, 1, start);
    Serial.CallIsHandled(setting, init, EMPTY, 0, raw, At(start));
    var mid, w := Run(setting, init, first), Handle(setting, EMPTY, 0, raw, At(start));
    Serial.CallIsHandled(setting, mid, w, 1, raw, At(end));
    RunConcat(setting, init, first, second);
    TwiceShown(setting, mid, Run(setting, mid, second), Handle(setting, w, 0, raw, At(end)), raw, start, end, lead);
  }

  lemma TwiceShown(setting: Setting, mid: State, s: State, w: World, raw: Raw, start: Time, end: Time, lead: nat)
    requires setting.wallclock.Valid() && Inv(setting, s) && raw.Parsed() && !raw.UsesResolvedSlot() && start <= end
    requires var gate := setting.wallclock.SlotAt(start); gate.Some? && raw.slot <= gate.value + lead
    requires Serial.Over(Init(1, start), mid, 0, raw, start, Exported) && Serial.Over(mid, s, 1, raw, end, Exported)
    requires Serial.Matches(s, w) && |w.records| == 2 && w.records[0].raw == raw && w.records[1].raw == raw
    ensures TwoExports(setting, s, raw, lead)
  {
    SlotAtMonotone(setting.wallclock, start, end);
    assert SlotDetermined(s.recordings, s.now, s.calls[0]) && SlotDetermined(s.recordings, s.now, s.calls[1]);
    assert Serial.SinkShows(s.sinks[0], s.metas, w.records);
    assert s.calls.Keys == {0, 1};
  }

  /** An event whose slot the clock accepts at two instants, further apart than it is remembered, is exported at
      both, to the sink as well. */
  lemma TwiceAt(setting: Setting, raw: Raw, start: Time, end: Time, lead: nat)
    requires setting.wallclock.Valid() && Rejection(setting, raw).None?
    requires !raw.PartialDataColumn? && !raw.PartialOutcome?
    requires Decides(setting.wallclock, raw, raw.slot, start, Exported)
    requires Decides(setting.wallclock, raw, raw.slot, end, Exported) && end - start > Window(raw)
    requires var gate := setting.wallclock.SlotAt(start); gate.Some? && raw.slot <= gate.value + lead
    ensures TwoExports(setting, Run(setting, Init(1, start), Twice(raw, start, end)), raw, lead)
  {
    KeysByType(setting, raw);
    WindowByType(raw);
    AgeByType(setting, raw, raw.slot, start);
    AgeByType(setting, raw, raw.slot, end);
    DecidesOne(setting.wallclock, raw, raw.slot, start, Exported, AgeCheck(setting, raw, raw.slot, start));
    DecidesOne(setting.wallclock, raw, raw.slot, end, Exported, AgeCheck(setting, raw, raw.slot, end));
    TwiceRuns(setting, raw, start, end, lead);
  }

  /** When 17 + lead slots outlast the TTL: the event arrives at the start of slot 1, and again the
      instant after its entry expired, at most 16 slots behind. */
  lemma TwiceExported(setting: Setting, raw: Raw, lead: nat) returns (s: State)
    requires setting.wallclock.Valid() && (17 + lead) * setting.wallclock.secondsPerSlot > 420
    requires raw.Gossip? || raw.DataColumnCompleted?
    requires raw.slot == WitnessSlot(lead) && KeyFor(setting, raw).Some?
    ensures s == Run(setting, Init(1, WitnessStart(setting)), Twice(raw, WitnessStart(setting), WitnessEnd(setting)))
    ensures TwoExports(setting, s, raw, lead)
  {
    WitnessAges(setting, raw, lead);
    s := Run(setting, Init(1, WitnessStart(setting)), Twice(raw, WitnessStart(setting), WitnessEnd(setting)));
    TwiceRuns(setting, raw, WitnessStart(setting), WitnessEnd(setting), lead);
  }

  /** A completion without a slot has no age to be cut off at: whatever the slot length, a repeat after
      the TTL is exported again. */
  lemma UnknownSlotRepeats(setting: Setting, lead: nat)
    requires setting.wallclock.Valid()
    ensures exists actions ::
              var s := Run(setting, Init(1, WitnessStart(setting)), actions);
              && FirstLeads(setting, s, Completion("", 0), lead)
              && !ExportedOnce(s, Completion("", 0)) && !DeliveredOnce(s, Completion("", 0))
              && forall id :: ExportOf(s, Completion("", 0), id) ==> s.calls[id].raw.slot == 0
  {
    var raw := DataColumnCompleted(0, 0, "", 0, "EL", "");
    DivUnique(WitnessStart(setting) - setting.wallclock.Genesis(), setting.wallclock.SlotDuration(), 1);
    var actions := Twice(raw, WitnessStart(setting), WitnessEnd(setting));
    TwiceRuns(setting, raw, WitnessStart(setting), WitnessEnd(setting), lead);
    TwoExportsLead(setting, Run(setting, Init(1, WitnessStart(setting)), actions), raw, lead, Completion("", 0));
  }

  /** The instant after an entry made at the start expires. */
  function WitnessEnd(setting: Setting): Time
    requires setting.wallclock.Valid()
  {
    WitnessStart(setting) + CONSENSUS_TTL + 1
  }

  lemma WitnessAges(setting: Setting, raw: Raw, lead: nat)
    requires setting.wallclock.Valid() && (17 + lead) * setting.wallclock.secondsPerSlot > 420
    requires raw.Gossip? || raw.DataColumnCompleted?
    requires raw.slot == WitnessSlot(lead) && KeyFor(setting, raw).Some?
    ensures AgeCheck(setting, raw, raw.slot, WitnessStart(setting)) == Exported
    ensures AgeCheck(setting, raw, raw.slot, WitnessEnd(setting)) == Exported
    ensures TtlOf(KeyFor(setting, raw).value) == CONSENSUS_TTL
    ensures setting.wallclock.SlotAt(WitnessStart(setting)) == Some(1) && raw.slot <= 1 + lead
  {
    WitnessTimes(setting, lead);
  }

  lemma WitnessTimes(setting: Setting, lead: nat)
    requires setting.wallclock.Valid() && (17 + lead) * setting.wallclock.secondsPerSlot > 420
    ensures var w, slot := setting.wallclock, WitnessSlot(lead);
            && w.SlotAt(WitnessStart(setting)) == Some(1) && !TooOld(1, slot)
            && w.SlotAt(WitnessEnd(setting)).Some? && !TooOld(w.SlotAt(WitnessEnd(setting)).value, slot)
  {
    var w, start, slot := setting.wallclock, WitnessStart(setting), WitnessSlot(lead);
    var d := w.SlotDuration();
    var end := WitnessEnd(setting);
    DivUnique(start - w.Genesis(), d, 1);
    TooOldIffBehind(1, slot);
    var q := w.SlotAt(end).value;
    SlotWindow(w, end);
    var reach: nat := if lead <= 420 then lead else 420;
    if lead > 420 { MulLe(1, w.secondsPerSlot, 17 + 420); }
    assert (17 + reach) * w.secondsPerSlot >= 421;
    assert (17 + reach) * d == (17 + reach) * w.secondsPerSlot * SECOND;
    assert end < w.SlotStart(1 + (17 + reach)) by {
      assert (1 + (17 + reach)) * d == d + (17 + reach) * d;
    }
    if q >= slot + 17 { MulLe(slot + 17, q, d); }
    TooOldIffBehind(q, slot);
  }
}

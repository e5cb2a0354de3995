/** What the invariant says of exported events, in every interleaving. */
module Consequences {
  import opened Base
  import opened Ttl
  import opened Slots
  import opened Chain
  import opened Events
  import opened Machine
  import opened Invariants
  import opened Promises

  ghost predicate Reachable(setting: Setting, s: State)
    requires setting.wallclock.Valid()
  {
    exists sinks: nat, start: Time, actions :: s == Run(setting, Init(sinks, start), actions)
  }

  lemma ReachableInv(setting: Setting, s: State)
    requires setting.wallclock.Valid() && Reachable(setting, s)
    ensures Inv(setting, s)
  {
    var sinks: nat, start: Time, actions :| s == Run(setting, Init(sinks, start), actions);
    InitInv(setting, sinks, start);
    RunInv(setting, Init(sinks, start), actions);
  }

  /** The call was accepted, and has been to its duplicate cache. */
  predicate ReachedGate(setting: Setting, c: Call) { Rank(c.pc) >= 3 && Rejection(setting, c.raw).None? }

  /** An accepted call had brought the same observation before, within the time it is remembered. */
  ghost predicate EarlierCallWithinTtl(setting: Setting, s: State, id: nat)
    requires id in s.calls
  {
    exists o :: o in s.calls && EarlierUse(setting, s.calls[o], s.calls[id])
  }

  predicate EarlierUse(setting: Setting, o: Call, c: Call) {
    && ReachedGate(setting, o) && o.arrival < c.arrival
    && SameObservation(setting, o.raw, c.raw) && c.gateAt - o.gateAt <= Window(c.raw)
  }

  lemma GateByType(setting: Setting, c: Call)
    ensures MadeUse(setting, c) <==> ReachedGate(setting, c)
  {
    KeysByType(setting, c.raw);
  }

  lemma UseByType(setting: Setting, o: Call, c: Call)
    requires MadeUse(setting, c)
    ensures EarlierUse(setting, o, c)
            <==> MadeUse(setting, o) && o.arrival < c.arrival && KeyFor(setting, o.raw) == KeyFor(setting, c.raw)
                 && c.gateAt - o.gateAt <= TtlOf(KeyFor(setting, c.raw).value)
  {
    GateByType(setting, o);
    GateByType(setting, c);
    WindowByType(c.raw);
    if Rejection(setting, o.raw).None? { KeysTellObservations(setting, o.raw, c.raw); }
  }

  /** The log shows a use within the TTL exactly when an earlier call made one. */
  lemma SeenIffEarlierCall(setting: Setting, s: State, id: nat)
    requires UsesAreCalls(setting, s.uses, s.gates, s.calls) && id in s.calls && MadeUse(setting, s.calls[id])
    ensures var c := s.calls[id];
            c.arrival < |s.uses|
            && (SeenBefore(s.uses, c.arrival, KeyFor(setting, c.raw).value, c.gateAt)
                <==> EarlierCallWithinTtl(setting, s, id))
  {
    var c := s.calls[id];
    var key := KeyFor(setting, c.raw).value;
    assert UseOf(setting, s.uses, s.gates, id, c);
    if SeenBefore(s.uses, c.arrival, key, c.gateAt) {
      var i :| 0 <= i < c.arrival && s.uses[..c.arrival][i].key == key
               && c.gateAt - s.uses[..c.arrival][i].at <= TtlOf(key);
      var o := s.gates[i].call;
      assert UseOf(setting, s.uses, s.gates, o, s.calls[o]);
      UseByType(setting, s.calls[o], c);
      assert EarlierUse(setting, s.calls[o], c);
    }
    if EarlierCallWithinTtl(setting, s, id) {
      var o :| o in s.calls && EarlierUse(setting, s.calls[o], c);
      UseByType(setting, s.calls[o], c);
      assert UseOf(setting, s.uses, s.gates, o, s.calls[o]);
      assert s.uses[..c.arrival][s.calls[o].arrival] == s.uses[s.calls[o].arrival];
    }
  }

  /** The filter: a decided call failed if it was turned away, was ignored if an accepted call had brought the
      same observation within the time it is remembered, and otherwise came to what its type, its slot and the
      clock decide. The slot is the event's own, except for a part or a verdict that asks for one
      (SlotFromLastRecorder). */
  lemma FilterDecides(setting: Setting, s: State, id: nat)
    requires setting.wallclock.Valid() && Reachable(setting, s)
    requires id in s.calls && s.calls[id].outcome.Some?
    ensures var c := s.calls[id];
            match Rejection(setting, c.raw)
            case Some(e) => c.outcome.value == Failed(e)
            case None =>
              if EarlierCallWithinTtl(setting, s, id) then c.outcome.value == Ignored
              else Decides(setting.wallclock, c.raw, c.slot, c.ageAt, c.outcome.value)
    ensures var c := s.calls[id];
            Rejection(setting, c.raw).None? && !AsksSlot(c.raw) ==> c.slot == c.raw.slot
  {
    ReachableInv(setting, s);
    var c := s.calls[id];
    assert Decided(setting, s.uses, s.now, c) && SlotDetermined(s.recordings, s.now, c);
    KeysByType(setting, c.raw);
    GateByType(setting, c);
    if MadeUse(setting, c) {
      SeenIffEarlierCall(setting, s, id);
      AgeByType(setting, c.raw, c.slot, c.ageAt);
    }
  }

  /** The hash tells the events of the run apart. */
  ghost predicate HashTellsApart(setting: Setting, calls: Calls) {
    forall a, b :: a in calls && b in calls && setting.hash(calls[a].raw).Some? ==>
      (setting.hash(calls[a].raw) == setting.hash(calls[b].raw) ==> calls[a].raw == calls[b].raw)
  }

  /** Nothing is dropped for a duplicate that is none: an accepted call is stopped at the gate exactly when an
      earlier one brought the same observation in time; and where the hash tells events apart, that one, unless
      it is a completion, brought the identical event. */
  lemma DroppedWasSeen(setting: Setting, s: State, id: nat)
    requires setting.wallclock.Valid() && Reachable(setting, s) && id in s.calls && ReachedGate(setting, s.calls[id])
    ensures var c := s.calls[id];
            && c.arrival < |s.gates| && s.gates[c.arrival].call == id
            && (!s.gates[c.arrival].passed <==> EarlierCallWithinTtl(setting, s, id))
    ensures var c := s.calls[id];
            EarlierCallWithinTtl(setting, s, id) && HashTellsApart(setting, s.calls) && !c.raw.DataColumnCompleted? ==>
              exists o :: o in s.calls && EarlierUse(setting, s.calls[o], c) && s.calls[o].raw == c.raw
  {
    ReachableInv(setting, s);
    GateByType(setting, s.calls[id]);
    assert UseOf(setting, s.uses, s.gates, id, s.calls[id]);
    SeenIffEarlierCall(setting, s, id);
  }

  /** 30 seconds in the caches of parts and of verdicts, 7 minutes in the others. */
  function Remembered(id: CacheId): int {
    if id.PartialDataColumns? || id.PartialDataColumnOutcomes? then 30_000_000_000 else 420_000_000_000
  }

  /** Sliding expiry: a key that was ever used expires one TTL after its last use, exported, duplicate or
      stale; the entry is there until then, and no key is there that was never used. */
  lemma EntriesSlide(setting: Setting, s: State, key: DupKey)
    requires setting.wallclock.Valid() && Reachable(setting, s)
    ensures key in s.dup ==>
              LastUse(s.uses, key).Some? && s.dup[key].expiry == LastUse(s.uses, key).value.at + Remembered(key.cache)
    ensures Live(s.dup, key, s.now) <==>
              LastUse(s.uses, key).Some? && s.now <= LastUse(s.uses, key).value.at + Remembered(key.cache)
  {
    ReachableInv(setting, s);
  }

  /** Calls that used one duplicate entry, in the order they did, each within the TTL of the one before. */
  ghost predicate RepeatChain(setting: Setting, s: State, chain: seq<nat>) {
    && (forall i :: 0 <= i < |chain| ==> chain[i] in s.calls && ReachedGate(setting, s.calls[chain[i]]))
    && (forall i :: 0 < i < |chain| ==> EarlierUse(setting, s.calls[chain[i - 1]], s.calls[chain[i]]))
  }

  /** However long a chain of repeats lasts, only its first call can be exported; and that call passes the
      gate exactly when the chain cannot be extended backwards. */
  lemma ChainsPassOnce(setting: Setting, s: State, chain: seq<nat>)
    requires setting.wallclock.Valid() && Reachable(setting, s) && RepeatChain(setting, s, chain)
    ensures forall i :: 0 < i < |chain| ==> s.calls[chain[i]].outcome != Some(Exported)
    ensures chain != [] ==>
              var c := s.calls[chain[0]];
              && c.arrival < |s.gates| && s.gates[c.arrival].call == chain[0]
              && (s.gates[c.arrival].passed <==> forall o :: o in s.calls ==> !RepeatChain(setting, s, [o] + chain))
  {
    ReachableInv(setting, s);
    forall i | 0 < i < |chain| ensures s.calls[chain[i]].outcome != Some(Exported) {
      assert EarlierUse(setting, s.calls[chain[i - 1]], s.calls[chain[i]]);
      if s.calls[chain[i]].outcome.Some? { FilterDecides(setting, s, chain[i]); }
    }
    if chain != [] {
      DroppedWasSeen(setting, s, chain[0]);
      forall o | o in s.calls
        ensures RepeatChain(setting, s, [o] + chain) <==> EarlierUse(setting, s.calls[o], s.calls[chain[0]])
      {
        ChainExtends(setting, s, o, chain);
      }
    }
  }

  lemma ChainExtends(setting: Setting, s: State, o: nat, chain: seq<nat>)
    requires RepeatChain(setting, s, chain) && chain != [] && o in s.calls
    ensures RepeatChain(setting, s, [o] + chain) <==> EarlierUse(setting, s.calls[o], s.calls[chain[0]])
  {
    var longer := [o] + chain;
    if EarlierUse(setting, s.calls[o], s.calls[chain[0]]) {
      forall i | 0 < i < |longer| ensures EarlierUse(setting, s.calls[longer[i - 1]], s.calls[longer[i]]) {
        if i > 1 { assert longer[i - 1] == chain[i - 2] && longer[i] == chain[i - 1]; }
      }
    }
    if RepeatChain(setting, s, longer) { assert EarlierUse(setting, s.calls[longer[0]], s.calls[longer[1]]); }
  }

  /** The call has told the slot cache the slot of its block. */
  predicate ToldSlot(c: Call) { Rank(c.pc) >= 2 && TellsSlot(c.raw) }

  /** The slot cache's history is exactly one recording for each call, placed so far, of the six types that
      carried a root and a slot, those ignored or rejected afterwards included; and its entries are the last
      recordings, for 7 minutes each. */
  lemma RecordingsExact(setting: Setting, s: State)
    requires setting.wallclock.Valid() && Reachable(setting, s)
    ensures |s.recorders| == |s.recordings|
    ensures forall i :: 0 <= i < |s.recorders| ==>
              && s.recorders[i] in s.calls && ToldSlot(s.calls[s.recorders[i]])
              && var c := s.calls[s.recorders[i]]; s.recordings[i] == Use(c.raw.blockRoot, c.raw.slot, c.placedAt)
    ensures forall id :: id in s.calls && ToldSlot(s.calls[id]) ==> id in s.recorders
    ensures forall i, j :: 0 <= i < j < |s.recorders| ==> s.recorders[i] != s.recorders[j]
    ensures forall root :: root in s.slots ==>
              LastUse(s.recordings, root).Some? && s.slots[root].value == LastUse(s.recordings, root).value.value
              && s.slots[root].expiry == LastUse(s.recordings, root).value.at + 420_000_000_000
  {
    ReachableInv(setting, s);
    forall i | 0 <= i < |s.recorders|
      ensures ToldSlot(s.calls[s.recorders[i]])
      ensures var c := s.calls[s.recorders[i]]; s.recordings[i] == Use(c.raw.blockRoot, c.raw.slot, c.placedAt)
    {
      assert RecordingOf(s.recordings, s.recorders, s.recorders[i], s.calls[s.recorders[i]]);
    }
    forall id | id in s.calls && ToldSlot(s.calls[id]) ensures id in s.recorders {
      assert MadeRecording(s.calls[id]);
      assert RecordingOf(s.recordings, s.recorders, id, s.calls[id]);
    }
  }

  /** The last call to record a slot for `root`, of those placed before position `n`. */
  ghost predicate LastRecorder(s: State, root: string, n: nat, o: nat) {
    && o in s.calls && ToldSlot(s.calls[o]) && s.calls[o].raw.blockRoot == root && s.calls[o].placement < n
    && (forall p :: p in s.calls && ToldSlot(s.calls[p]) && s.calls[p].raw.blockRoot == root ==>
          s.calls[p].placement < n ==> s.calls[p].placement <= s.calls[o].placement)
  }

  /** The call is a part or a verdict that named a root but no slot. */
  predicate AsksForSlot(c: Call) { Rank(c.pc) >= 2 && AsksSlot(c.raw) }

  /** A partial event without a slot gets the one named by the last call to record its root before
      it, from any of the six feeding paths and whatever became of that call, if that was at most
      7 minutes earlier. */
  lemma SlotFromLastRecorder(setting: Setting, s: State, id: nat, o: nat)
    requires setting.wallclock.Valid() && Reachable(setting, s) && id in s.calls && AsksForSlot(s.calls[id])
    requires LastRecorder(s, s.calls[id].raw.blockRoot, s.calls[id].placement, o)
    ensures var c := s.calls[id];
            c.slot == if c.placedAt - s.calls[o].placedAt <= 420_000_000_000 then s.calls[o].raw.slot else 0
  {
    ReachableInv(setting, s);
    var c := s.calls[id];
    var root, n := c.raw.blockRoot, c.placement;
    assert SlotDetermined(s.recordings, s.now, c);
    assert MadeRecording(s.calls[o]);
    assert RecordingOf(s.recordings, s.recorders, o, s.calls[o]);
    LastUseIsLast(s.recordings[..n], root);
    assert s.recordings[..n][s.calls[o].placement].key == root;
    var i, last := RecorderOfLastUse(s, root, n);
    RecordedFromLast(s.recordings[..n], root, i, c.placedAt, s.now, s.recordings);
  }

  /** And when no call recorded its root before it, its slot stays unknown. */
  lemma SlotWithoutRecorder(setting: Setting, s: State, id: nat)
    requires setting.wallclock.Valid() && Reachable(setting, s) && id in s.calls && AsksForSlot(s.calls[id])
    requires forall o :: !LastRecorder(s, s.calls[id].raw.blockRoot, s.calls[id].placement, o)
    ensures s.calls[id].slot == 0
  {
    ReachableInv(setting, s);
    var c := s.calls[id];
    assert SlotDetermined(s.recordings, s.now, c);
    if LastUse(s.recordings[..c.placement], c.raw.blockRoot).Some? {
      var i, o := RecorderOfLastUse(s, c.raw.blockRoot, c.placement);
      assert false;
    }
  }

  /** The call behind the last use of a root is the only last recorder. */
  lemma RecorderOfLastUse(s: State, root: string, n: nat) returns (i: nat, o: nat)
    requires RecordingsAreCalls(s.recordings, s.recorders, s.calls) && n <= |s.recordings|
    requires LastUse(s.recordings[..n], root).Some?
    ensures i < n && s.recordings[i].key == root && s.recordings[i] == LastUse(s.recordings[..n], root).value
    ensures forall j :: i < j < n ==> s.recordings[j].key != root
    ensures LastRecorder(s, root, n, o) && s.recordings[i] == Use(root, s.calls[o].raw.slot, s.calls[o].placedAt)
    ensures forall p :: LastRecorder(s, root, n, p) ==> p == o
  {
    var log := s.recordings[..n];
    LastUseIsLast(log, root);
    i :| 0 <= i < |log| && log[i] == LastUse(log, root).value && log[i].key == root
         && forall j :: i < j < |log| ==> log[j].key != root;
    o := s.recorders[i];
    assert RecordingOf(s.recordings, s.recorders, o, s.calls[o]);
    forall j | i < j < n ensures s.recordings[j].key != root { assert log[j] == s.recordings[j]; }
    forall p | p in s.calls && ToldSlot(s.calls[p]) && s.calls[p].raw.blockRoot == root && s.calls[p].placement < n
      ensures s.calls[p].placement <= i
    {
      assert MadeRecording(s.calls[p]) && RecordingOf(s.recordings, s.recorders, p, s.calls[p]);
    }
    forall p | LastRecorder(s, root, n, p) ensures p == o {
      assert MadeRecording(s.calls[p]);
      assert RecordingOf(s.recordings, s.recorders, p, s.calls[p]);
    }
  }

  lemma RecordedFromLast(log: SlotLog, root: string, i: nat, at: int, now: int, whole: SlotLog)
    requires log <= whole && Chronological(whole, now) && root != ""
    requires i < |log| && log[i].key == root && LastUse(log, root) == Some(log[i])
    requires forall j :: i < j < |log| ==> log[j].key != root
    ensures Resolved(log, root, 0, at) == if at - log[i].at <= BLOCK_SLOT_TTL then log[i].value else 0
  {
  }

  // ----- what the sinks have been given -----

  ghost predicate InSink(s: State, e: Event) {
    exists k, i :: 0 <= k < |s.sinks| && 0 <= i < |s.sinks[k]| && s.sinks[k][i] == e
  }

  lemma DeliveredEvent(setting: Setting, s: State, e: Event)
    requires setting.wallclock.Valid() && Inv(setting, s) && InSink(s, e)
    ensures e.call in s.calls && e.call in s.metas
    ensures var c := s.calls[e.call];
            && c.raw.Parsed() && e == EventFor(e.call, c) && c.outcome == Some(Exported) && Rank(c.pc) >= 8
            && Decided(setting, s.uses, s.now, c) && MetaOf(setting, s.metas, e.call, c)
            && SlotDetermined(s.recordings, s.now, c)
  {
    var k, i :| 0 <= k < |s.sinks| && 0 <= i < |s.sinks[k]| && s.sinks[k][i] == e;
    assert SinkHoldsCalls(s.sinks[k], k, s.calls);
    assert DeliveredOf(s.sinks, e.call, s.calls[e.call]);
  }

  /** A delivered event carries its type's name, the timing of its slot, and whatever drifts the cron stored and
      when, one drift: its date is the client's timestamp moved by it, and its metadata holds how far, in whole
      milliseconds. */
  lemma DeliveredAs(setting: Setting, s: State, e: Event)
    requires setting.wallclock.Valid() && Reachable(setting, s) && InSink(s, e)
    ensures !e.raw.Malformed? && !e.raw.Unsupported? && e.call in s.calls && e.call in s.metas
    ensures var c, meta := s.calls[e.call], s.metas[e.call];
            && e.raw == c.raw && e.name == EventName(e.raw) && (!AsksSlot(c.raw) ==> c.slot == c.raw.slot)
            && TimedAs(setting.wallclock, e.raw, c.slot, meta.timing)
            && e.dateTime == e.raw.timestampMs * 1_000_000 + c.drift && meta.clockDrift == Abs(c.drift) / 1_000_000
  {
    ReachableInv(setting, s);
    DeliveredEvent(setting, s, e);
    hide Topic, TimedAs;
    NamesByType(e.raw);
    TimingByType(setting, e.raw, s.calls[e.call].slot);
  }

  /** So the drift shown is the distance between the date shown and the timestamp. */
  lemma DriftCoherent(setting: Setting, s: State, e: Event)
    requires setting.wallclock.Valid() && Reachable(setting, s) && InSink(s, e)
    ensures !e.raw.Malformed? && !e.raw.Unsupported? && e.call in s.metas
    ensures s.metas[e.call].clockDrift == Abs(e.dateTime - e.raw.timestampMs * 1_000_000) / 1_000_000
  {
    DeliveredAs(setting, s, e);
  }

  /** A delivered event of any type but proposer preferences, with a known slot and a timestamp not after
      the clock reading of its age check, shows a propagation below 17 slots if it shows one. */
  lemma DeliveredIsFresh(setting: Setting, s: State, e: Event)
    requires setting.wallclock.Valid() && Reachable(setting, s) && InSink(s, e)
    requires e.raw.Gossip? || BlockType(e.raw)
    ensures e.call in s.calls && e.call in s.metas
    ensures var c, timing := s.calls[e.call], s.metas[e.call].timing;
            && (e.raw.Gossip? || c.slot != 0 ==>
                  var q := setting.wallclock.SlotAt(c.ageAt); q.Some? && q.value <= c.slot + 16)
            && ((e.raw.Gossip? || c.slot != 0) && e.raw.timestampMs * 1_000_000 <= c.ageAt
                && timing.Some? && timing.value.slotStartDiff.Some? ==>
                  timing.value.slotStartDiff.value < 17 * 1000 * setting.wallclock.secondsPerSlot)
  {
    ReachableInv(setting, s);
    DeliveredEvent(setting, s, e);
    var c, timing := s.calls[e.call], s.metas[e.call].timing;
    AgeByType(setting, c.raw, c.slot, c.ageAt);
    if e.raw.Gossip? || c.slot != 0 {
      TooOldIffBehind(setting.wallclock.SlotAt(c.ageAt).value, c.slot);
      if e.raw.timestampMs * 1_000_000 <= c.ageAt {
        FreshMeansSmallDiff(setting.wallclock, UnixMilli(e.raw.timestampMs), c.ageAt, c.slot);
      }
    }
  }

  // ----- which drift -----

  /** The drift the cron stored last, 0 before it stored any. */
  function LastStored(actions: seq<Action>): i64 {
    if actions == [] then 0
    else
      match actions[|actions| - 1]
      case StoreDrift(drift) => drift
      case _ => LastStored(actions[..|actions| - 1])
  }

  lemma {:induction false} DriftOfRun(setting: Setting, sinks: nat, start: Time, actions: seq<Action>)
    requires setting.wallclock.Valid()
    ensures Run(setting, Init(sinks, start), actions).drift == LastStored(actions)
  {
    if actions != [] { DriftOfRun(setting, sinks, start, actions[..|actions| - 1]); }
  }

  /** A call's drift is set by its first step, to the one in the cell, and by no other. */
  lemma DriftSetOnce(setting: Setting, s: State, a: Action, id: nat)
    requires setting.wallclock.Valid()
    requires id in Apply(setting, s, a).calls && Rank(Apply(setting, s, a).calls[id].pc) >= 1
    ensures id in s.calls
    ensures if Rank(s.calls[id].pc) >= 1 then Apply(setting, s, a).calls[id].drift == s.calls[id].drift
            else a == Advance(id) && Apply(setting, s, a).calls[id].drift == s.drift
  {
    if a.Advance? {
      StepsOneCall(setting, s, a.id);
      hide AdvanceStep;
    }
  }

  lemma StepsOneCall(setting: Setting, s: State, id: nat)
    requires setting.wallclock.Valid()
    ensures var s' := AdvanceStep(setting, s, id);
            if id in s.calls then
              && id in s'.calls && s'.calls == s.calls[id := s'.calls[id]]
              && s'.calls[id].drift == if s.calls[id].pc == Entered then s.drift else s.calls[id].drift
            else s' == s
  {
    if id in s.calls {
      var c := s.calls[id];
      match c.pc
      case Entered =>
      case Metered => PlaceFrame(s, id, c);
      case Placed => assert GateStep(setting, s, id, c).calls == s.calls[id := GatedCall(setting, s, c)];
      case Gated =>
      case _ => assert s.calls[id := c] == s.calls;
    }
  }

  /** The drift of a call is the one stored last when the call took its first step. */
  lemma {:induction false} DriftOfTheMoment(setting: Setting, sinks: nat, start: Time, actions: seq<Action>, id: nat)
    returns (n: nat)
    requires setting.wallclock.Valid()
    requires var s := Run(setting, Init(sinks, start), actions); id in s.calls && Rank(s.calls[id].pc) >= 1
    ensures n < |actions| && actions[n] == Advance(id)
    ensures var s := Run(setting, Init(sinks, start), actions[..n]); id in s.calls && s.calls[id].pc == Entered
    ensures Run(setting, Init(sinks, start), actions).calls[id].drift == LastStored(actions[..n])
  {
    n := |actions| - 1;
    var s := Run(setting, Init(sinks, start), actions[..n]);
    DriftSetOnce(setting, s, actions[n], id);
    DriftOfRun(setting, sinks, start, actions[..n]);
    if Rank(s.calls[id].pc) >= 1 {
      var last := n;
      n := DriftOfTheMoment(setting, sinks, start, actions[..last], id);
      assert actions[..last][..n] == actions[..n];
    }
  }

  /** Sinks only grow, and what they hold, metadata included, never changes again. */
  ghost predicate Frozen(s: State, later: State) {
    && Extends(s.sinks, later.sinks)
    && (forall e :: InSink(s, e) ==>
          e.call in s.metas && e.call in later.metas && later.metas[e.call] == s.metas[e.call])
  }

  /** No step writes the metadata of a call that is past decorating. */
  lemma MetaFrozen(setting: Setting, s: State, a: Action, id: nat)
    requires setting.wallclock.Valid() && id in s.calls && id in s.metas && Rank(s.calls[id].pc) >= 5
    ensures id in Apply(setting, s, a).metas && Apply(setting, s, a).metas[id] == s.metas[id]
  {
  }

  ghost predicate Extends(sinks: seq<seq<Event>>, later: seq<seq<Event>>) {
    |sinks| == |later| && forall k :: 0 <= k < |sinks| ==> sinks[k] <= later[k]
  }

  lemma SinksGrow(setting: Setting, s: State, a: Action)
    requires setting.wallclock.Valid()
    ensures Extends(s.sinks, Apply(setting, s, a).sinks)
  {
    if a.Advance? && a.id in s.calls {
      var c := s.calls[a.id];
      if c.pc == Delivering && c.raw.Parsed() {
        assert Extends(s.sinks, ExportStep(setting, s, a.id, c).sinks);
      } else {
        assert Apply(setting, s, a).sinks == s.sinks;
      }
    } else {
      assert Apply(setting, s, a).sinks == s.sinks;
    }
  }

  lemma FrozenStep(setting: Setting, s: State, a: Action)
    requires setting.wallclock.Valid() && Inv(setting, s)
    ensures Frozen(s, Apply(setting, s, a))
  {
    SinksGrow(setting, s, a);
    forall e | InSink(s, e)
      ensures e.call in s.metas && e.call in Apply(setting, s, a).metas
      ensures Apply(setting, s, a).metas[e.call] == s.metas[e.call]
    {
      DeliveredEvent(setting, s, e);
      MetaFrozen(setting, s, a, e.call);
    }
  }

  /** Nothing that happens after an event reached a sink changes the event or its client metadata. */
  lemma {:induction false} ExportsStayFrozen(setting: Setting, s: State, actions: seq<Action>)
    requires setting.wallclock.Valid() && Inv(setting, s)
    ensures Frozen(s, Run(setting, s, actions))
  {
    if actions == [] {
      forall e | InSink(s, e) ensures e.call in s.metas { DeliveredEvent(setting, s, e); }
    } else {
      var mid := Run(setting, s, actions[..|actions| - 1]);
      ExportsStayFrozen(setting, s, actions[..|actions| - 1]);
      RunInv(setting, s, actions[..|actions| - 1]);
      FrozenStep(setting, mid, actions[|actions| - 1]);
      forall e | InSink(s, e) ensures InSink(mid, e) {
        var k, i :| 0 <= k < |s.sinks| && 0 <= i < |s.sinks[k]| && s.sinks[k][i] == e;
        assert mid.sinks[k][i] == e;
      }
      forall k | 0 <= k < |s.sinks| ensures s.sinks[k] <= Run(setting, s, actions).sinks[k] {
        assert s.sinks[k] <= mid.sinks[k];
      }
    }
  }

  /** Once every call has finished, every sink has been offered exactly the exported calls' events. */
  lemma SinksComplete(setting: Setting, s: State, k: nat, id: nat)
    requires setting.wallclock.Valid() && Reachable(setting, s) && k < |s.sinks|
    requires id in s.calls && s.calls[id].pc == Finished
    ensures s.calls[id].outcome == Some(Exported) && s.calls[id].raw.Parsed()
            <==> exists i :: 0 <= i < |s.sinks[k]| && s.sinks[k][i].call == id
  {
    ReachableInv(setting, s);
    var c := s.calls[id];
    assert DeliveredOf(s.sinks, id, c) && SinkHoldsCalls(s.sinks[k], k, s.calls);
    if c.outcome == Some(Exported) && c.raw.Parsed() {
      assert EventFor(id, c) in s.sinks[k];
    }
  }
}

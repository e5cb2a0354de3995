/** What the export decisions do not depend on: when expired entries are evicted, the clock drift, and
    events of other types. Each is shown by relating two runs of the pipeline. */
module NonInterference {
  import opened Base
  import opened Ttl
  import opened Slots
  import opened Chain
  import opened Events
  import opened Machine
  import opened Invariants
  import opened Promises

  // ----- background eviction -----

  /** Two stores that answer alike now, and so for ever after. */
  ghost predicate SameLive<K(!new), V>(m: Store<K, V>, m': Store<K, V>, now: int) {
    forall k :: (Live(m, k, now) || Live(m', k, now)) ==> k in m && k in m' && m[k] == m'[k]
  }

  ghost predicate SameButExpired(s: State, t: State) {
    && t == s.(dup := t.dup, slots := t.slots)
    && SameLive(s.dup, t.dup, s.now) && SameLive(s.slots, t.slots, s.now)
  }

  predicate IsEviction(a: Action) { a.EvictKey? || a.EvictRoot? }

  function WithoutEvictions(actions: seq<Action>): seq<Action> {
    if actions == [] then []
    else
      var rest, a := WithoutEvictions(actions[..|actions| - 1]), actions[|actions| - 1];
      if IsEviction(a) then rest else rest + [a]
  }

  lemma AnswersAlike<K(!new), V>(m: Store<K, V>, m': Store<K, V>, k: K, v: V, ttl: int, now: int)
    requires SameLive(m, m', now)
    ensures Live(m, k, now) == Live(m', k, now) && Settled(m, k, v, now) == Settled(m', k, v, now)
    ensures SameLive(Put(m, k, v, ttl, now), Put(m', k, v, ttl, now), now)
    ensures SameLive(GetOrSet(m, k, v, ttl, now), GetOrSet(m', k, v, ttl, now), now)
  {
  }

  lemma PlaceAlike(s: State, t: State, id: nat, c: Call)
    requires SameButExpired(s, t)
    ensures SameButExpired(PlaceStep(s, id, c), PlaceStep(t, id, c))
  {
    if c.raw.Feeds() {
      AnswersAlike(s.slots, t.slots, c.raw.blockRoot, c.raw.slot, BLOCK_SLOT_TTL, s.now);
    }
  }

  lemma GateAlike(setting: Setting, s: State, t: State, id: nat, c: Call)
    requires SameButExpired(s, t)
    ensures SameButExpired(GateStep(setting, s, id, c), GateStep(setting, t, id, c))
  {
    if KeyFor(setting, c.raw).Some? {
      var key, stamp := KeyFor(setting, c.raw).value, UnixMilli(c.raw.timestampMs);
      AnswersAlike(s.dup, t.dup, key, stamp, TtlOf(key), s.now);
    }
  }

  /** Steps that look at neither store. */
  lemma ExportAlike(setting: Setting, s: State, t: State, id: nat, c: Call)
    requires setting.wallclock.Valid() && SameButExpired(s, t) && c.raw.Parsed()
    ensures SameButExpired(ExportStep(setting, s, id, c), ExportStep(setting, t, id, c))
  {
  }

  lemma AdvanceAlike(setting: Setting, s: State, t: State, id: nat)
    requires setting.wallclock.Valid() && SameButExpired(s, t)
    ensures SameButExpired(AdvanceStep(setting, s, id), AdvanceStep(setting, t, id))
  {
    if id in s.calls {
      var c := s.calls[id];
      match c.pc
      case Entered =>
      case Metered => PlaceAlike(s, t, id, c);
      case Placed => GateAlike(setting, s, t, id, c);
      case Gated =>
      case _ => if c.raw.Parsed() { ExportAlike(setting, s, t, id, c); }
    }
  }

  lemma StepAlike(setting: Setting, s: State, t: State, a: Action)
    requires setting.wallclock.Valid() && SameButExpired(s, t)
    ensures SameButExpired(Apply(setting, s, a), if IsEviction(a) then t else Apply(setting, t, a))
  {
    match a
    case Advance(id) => AdvanceAlike(setting, s, t, id);
    case Tick(to) => if s.now <= to { assert SameButExpired(s.(now := to), t.(now := to)); }
    case EvictKey(key) => assert SameLive(Evict(s.dup, key, s.now), t.dup, s.now);
    case EvictRoot(root) => assert SameLive(Evict(s.slots, root, s.now), t.slots, s.now);
    case _ =>
  }

  /** Evicting expired entries at any moments changes no call, sink, metadata, counter or log. */
  lemma {:induction false} EvictionInvisible(setting: Setting, s: State, actions: seq<Action>)
    requires setting.wallclock.Valid()
    ensures SameButExpired(Run(setting, s, actions), Run(setting, s, WithoutEvictions(actions)))
  {
    if actions != [] {
      var rest, a := actions[..|actions| - 1], actions[|actions| - 1];
      EvictionInvisible(setting, s, rest);
      StepAlike(setting, Run(setting, s, rest), Run(setting, s, WithoutEvictions(rest)), a);
      if !IsEviction(a) { assert (WithoutEvictions(rest) + [a])[..|WithoutEvictions(rest)|] == WithoutEvictions(rest); }
    }
  }

  // ----- clock drift -----

  ghost predicate SameButDrift(s: State, t: State) {
    && t == s.(drift := t.drift, calls := t.calls, metas := t.metas, sinks := t.sinks)
    && s.calls.Keys == t.calls.Keys
    && (forall id :: id in s.calls ==> t.calls[id] == s.calls[id].(drift := t.calls[id].drift))
    && s.metas.Keys == t.metas.Keys
    && (forall id :: id in s.metas ==> t.metas[id].timing == s.metas[id].timing)
    && SameSinks(s.sinks, t.sinks)
  }

  ghost predicate SameSinks(sinks: seq<seq<Event>>, sinks': seq<seq<Event>>) {
    && |sinks| == |sinks'|
    && (forall k :: 0 <= k < |sinks| ==> |sinks[k]| == |sinks'[k]|)
    && (forall k, i :: 0 <= k < |sinks| && 0 <= i < |sinks[k]| ==>
          sinks'[k][i] == sinks[k][i].(dateTime := sinks'[k][i].dateTime))
  }

  /** The same schedule, with other drifts measured. */
  predicate SameSchedule(a: seq<Action>, b: seq<Action>) {
    |a| == |b| && forall i :: 0 <= i < |a| ==> a[i] == b[i] || (a[i].StoreDrift? && b[i].StoreDrift?)
  }

  /** A step that gives both runs' call records differing only in drift, and moves nothing that a
      drift reached. */
  lemma DriftUpdate(s: State, t: State, s': State, t': State, id: nat)
    requires SameButDrift(s, t) && id in s.calls && id in s'.calls && id in t'.calls
    requires s'.calls == s.calls[id := s'.calls[id]] && t'.calls == t.calls[id := t'.calls[id]]
    requires t'.calls[id] == s'.calls[id].(drift := t'.calls[id].drift)
    requires s'.metas.Keys == t'.metas.Keys
    requires forall o :: o in s'.metas ==> t'.metas[o].timing == s'.metas[o].timing
    requires SameSinks(s'.sinks, t'.sinks)
    requires t' == s'.(drift := t'.drift, calls := t'.calls, metas := t'.metas, sinks := t'.sinks)
    ensures SameButDrift(s', t')
  {
  }

  lemma MeterDrift(s: State, t: State, id: nat, c: Call, d: Call)
    requires SameButDrift(s, t) && id in s.calls && d == c.(drift := d.drift)
    ensures SameButDrift(MeterStep(s, id, c), MeterStep(t, id, d))
  {
  }

  lemma PlaceDrift(s: State, t: State, id: nat, c: Call, d: Call)
    requires SameButDrift(s, t) && id in s.calls && d == c.(drift := d.drift)
    ensures SameButDrift(PlaceStep(s, id, c), PlaceStep(t, id, d))
  {
    hide ResolveSlot, ResolveStore;
    DriftUpdate(s, t, PlaceStep(s, id, c), PlaceStep(t, id, d), id);
  }

  lemma GateDrift(setting: Setting, s: State, t: State, id: nat, c: Call, d: Call)
    requires SameButDrift(s, t) && id in s.calls && d == c.(drift := d.drift)
    ensures SameButDrift(GateStep(setting, s, id, c), GateStep(setting, t, id, d))
  {
    DriftUpdate(s, t, GateStep(setting, s, id, c), GateStep(setting, t, id, d), id);
  }

  lemma AgeDrift(setting: Setting, s: State, t: State, id: nat, c: Call, d: Call)
    requires setting.wallclock.Valid() && SameButDrift(s, t) && id in s.calls && d == c.(drift := d.drift)
    ensures SameButDrift(AgeStep(setting, s, id, c), AgeStep(setting, t, id, d))
  {
  }

  lemma ExportDrift(setting: Setting, s: State, t: State, id: nat, c: Call, d: Call)
    requires setting.wallclock.Valid() && SameButDrift(s, t) && id in s.calls && d == c.(drift := d.drift)
    requires c.raw.Parsed()
    ensures SameButDrift(ExportStep(setting, s, id, c), ExportStep(setting, t, id, d))
  {
    var s', t' := ExportStep(setting, s, id, c), ExportStep(setting, t, id, d);
    assert SameSinks(s'.sinks, t'.sinks);
    DriftUpdate(s, t, s', t', id);
  }

  lemma DriftStep(setting: Setting, s: State, t: State, id: nat)
    requires setting.wallclock.Valid() && SameButDrift(s, t) && id in s.calls
    ensures SameButDrift(AdvanceStep(setting, s, id), AdvanceStep(setting, t, id))
  {
    var c, d := s.calls[id], t.calls[id];
    match c.pc
    case Entered => MeterDrift(s, t, id, c, d);
    case Metered => PlaceDrift(s, t, id, c, d);
    case Placed => GateDrift(setting, s, t, id, c, d);
    case Gated => AgeDrift(setting, s, t, id, c, d);
    case _ => if c.raw.Parsed() { ExportDrift(setting, s, t, id, c, d); }
  }

  lemma ActionDrift(setting: Setting, s: State, t: State, a: Action, b: Action)
    requires setting.wallclock.Valid() && SameButDrift(s, t) && (a == b || (a.StoreDrift? && b.StoreDrift?))
    ensures SameButDrift(Apply(setting, s, a), Apply(setting, t, b))
  {
    if a.Advance? && a.id in s.calls { DriftStep(setting, s, t, a.id); }
  }

  /** No decision, slot or propagation value depends on the drifts the cron stores: two runs of one
      schedule that differ only in those agree on everything but the drifts and dates themselves. */
  lemma {:induction false} DriftOnlyDates(setting: Setting, s: State, a: seq<Action>, b: seq<Action>)
    requires setting.wallclock.Valid() && SameSchedule(a, b)
    ensures SameButDrift(Run(setting, s, a), Run(setting, s, b))
  {
    if a != [] {
      var n := |a| - 1;
      DriftOnlyDates(setting, s, a[..n], b[..n]);
      ActionDrift(setting, Run(setting, s, a[..n]), Run(setting, s, b[..n]), a[n], b[n]);
    }
  }

  // ----- events of other types -----

  predicate UsesCache(raw: Raw, target: CacheId) { raw.Parsed() && CacheOf(raw) == target }

  predicate NeedsSlots(target: CacheId) { target.PartialDataColumns? || target.PartialDataColumnOutcomes? }

  /** What is left of an event when only the calls using `target` are kept. For the two partial types
      a recording must remain: it is left to a completion that is rejected for its enum. */
  function Remnant(target: CacheId, raw: Raw): Option<Raw> {
    if UsesCache(raw, target) then Some(raw)
    else if NeedsSlots(target) && raw.Feeds() && Records(raw.blockRoot, raw.slot) then
      Some(DataColumnCompleted(raw.timestampMs, raw.slot, raw.blockRoot, 0, "", ""))
    else None
  }

  function Project(target: CacheId, actions: seq<Action>): seq<Action> {
    if actions == [] then []
    else
      var rest, a := Project(target, actions[..|actions| - 1]), actions[|actions| - 1];
      if !a.Enter? then rest + [a]
      else
        match Remnant(target, a.raw)
        case None => rest
        case Some(raw) => rest + [Enter(a.id, raw)]
  }

  /** Calls are told apart: none is entered twice. */
  ghost predicate DistinctCalls(actions: seq<Action>) {
    forall i, j :: 0 <= i < j < |actions| && actions[i].Enter? && actions[j].Enter? ==> actions[i].id != actions[j].id
  }

  ghost predicate SameCall(c: Call, d: Call) {
    d == c.(placement := d.placement, arrival := d.arrival)
  }

  /** The two calls stand alike up to their gate. */
  ghost predicate SameRecorder(c: Call, d: Call) {
    Rank(c.pc) <= 2 || Rank(d.pc) <= 2 ==> c.pc == d.pc
  }

  ghost predicate CallsAgree(target: CacheId, calls: Calls, kept: Calls) {
    && kept.Keys <= calls.Keys
    && (forall id :: id in calls ==>
          match Remnant(target, calls[id].raw)
          case None => id !in kept
          case Some(raw) =>
            && id in kept && kept[id].raw == raw
            && if UsesCache(calls[id].raw, target) then SameCall(calls[id], kept[id])
               else SameRecorder(calls[id], kept[id]))
  }

  ghost predicate DupAgree(target: CacheId, dup: Store<DupKey, Time>, kept: Store<DupKey, Time>) {
    forall key: DupKey :: key.cache == target ==>
      (key in dup <==> key in kept) && (key in dup ==> dup[key] == kept[key])
  }

  ghost predicate MetasAgree(target: CacheId, calls: Calls, metas: map<nat, Meta>, kept: map<nat, Meta>) {
    forall id :: id in calls && UsesCache(calls[id].raw, target) && Rank(calls[id].pc) >= 1 ==>
      id in metas && id in kept && metas[id] == kept[id]
  }

  ghost predicate Agree(target: CacheId, s: State, t: State) {
    && s.now == t.now && s.drift == t.drift && |s.sinks| == |t.sinks|
    && DupAgree(target, s.dup, t.dup)
    && (NeedsSlots(target) ==> s.slots == t.slots)
    && CallsAgree(target, s.calls, t.calls)
    && MetasAgree(target, s.calls, s.metas, t.metas)
  }

  // The parts of Agree after a step of one call. `c` and `d` are the call's new records.

  lemma CallsUpdate(target: CacheId, calls: Calls, kept: Calls, id: nat, c: Call, d: Call)
    requires CallsAgree(target, calls, kept) && id in calls && id in kept
    requires c.raw == calls[id].raw && d.raw == kept[id].raw
    requires if UsesCache(c.raw, target) then SameCall(c, d) else SameRecorder(c, d)
    ensures CallsAgree(target, calls[id := c], kept[id := d])
  {
  }

  lemma MetasUpdate(target: CacheId, s: State, t: State, id: nat, c: Call, metas: map<nat, Meta>, kept: map<nat, Meta>)
    requires MetasAgree(target, s.calls, s.metas, t.metas) && id in s.calls && c.raw == s.calls[id].raw
    requires forall o :: o != id ==> (o in metas <==> o in s.metas) && (o in metas ==> metas[o] == s.metas[o])
    requires forall o :: o != id ==> (o in kept <==> o in t.metas) && (o in kept ==> kept[o] == t.metas[o])
    requires UsesCache(c.raw, target) && Rank(c.pc) >= 1 ==> id in metas && id in kept && metas[id] == kept[id]
    ensures MetasAgree(target, s.calls[id := c], metas, kept)
  {
  }

  /** GetOrSet on one cache is invisible to the others, and has the same effect where stores agree. */
  lemma DupUpdate(target: CacheId, dup: Store<DupKey, Time>, kept: Store<DupKey, Time>, key: DupKey,
                  stamp: Time, now: Time)
    requires DupAgree(target, dup, kept)
    ensures key.cache != target ==> DupAgree(target, GetOrSet(dup, key, stamp, TtlOf(key), now), kept)
    ensures key.cache == target ==>
              && Live(dup, key, now) == Live(kept, key, now)
              && DupAgree(target, GetOrSet(dup, key, stamp, TtlOf(key), now),
                          GetOrSet(kept, key, stamp, TtlOf(key), now))
  {
  }

  /** A kept call takes the same step in both runs. */
  lemma KeptMeter(target: CacheId, s: State, t: State, id: nat, c: Call, d: Call)
    requires Agree(target, s, t) && id in s.calls && c == s.calls[id] && id in t.calls && d == t.calls[id]
    requires c.pc == Entered && d.pc == Entered && (UsesCache(c.raw, target) ==> SameCall(c, d))
    ensures Agree(target, MeterStep(s, id, c), MeterStep(t, id, d))
  {
  }

  /** Both runs answer alike and record alike, as far as the kept calls can tell. */
  lemma PlaceAgrees(target: CacheId, s: State, t: State, c: Call, d: Call)
    requires s.now == t.now && (NeedsSlots(target) ==> s.slots == t.slots)
    requires Remnant(target, c.raw) == Some(d.raw)
    ensures UsesCache(c.raw, target) && SameCall(c, d) ==> SameCall(PlacedCall(s, c), PlacedCall(t, d))
    ensures NeedsSlots(target) ==>
              && (c.raw.Feeds() && Records(c.raw.blockRoot, c.raw.slot)
                  <==> d.raw.Feeds() && Records(d.raw.blockRoot, d.raw.slot))
              && (c.raw.Feeds() && Records(c.raw.blockRoot, c.raw.slot) ==>
                    c.raw.blockRoot == d.raw.blockRoot && c.raw.slot == d.raw.slot)
  {
  }

  lemma KeptPlace(target: CacheId, s: State, t: State, id: nat, c: Call, d: Call)
    requires Agree(target, s, t) && id in s.calls && c == s.calls[id] && id in t.calls && d == t.calls[id]
    requires c.pc == Metered && d.pc == Metered
    ensures Agree(target, PlaceStep(s, id, c), PlaceStep(t, id, d))
  {
    PlaceFrame(s, id, c);
    PlaceFrame(t, id, d);
    PlaceAgrees(target, s, t, c, d);
    CallsUpdate(target, s.calls, t.calls, id, PlacedCall(s, c), PlacedCall(t, d));
    MetasUpdate(target, s, t, id, PlacedCall(s, c), s.metas, t.metas);
  }

  lemma GateAgrees(setting: Setting, target: CacheId, s: State, t: State, c: Call, d: Call)
    requires s.now == t.now && DupAgree(target, s.dup, t.dup) && Remnant(target, c.raw) == Some(d.raw)
    ensures UsesCache(c.raw, target) && SameCall(c, d) ==> SameCall(GatedCall(setting, s, c), GatedCall(setting, t, d))
    ensures Rank(GatedCall(setting, s, c).pc) >= 3 && Rank(GatedCall(setting, t, d).pc) >= 3
    ensures GatedCall(setting, s, c).raw == c.raw
    ensures !UsesCache(c.raw, target) ==> KeyFor(setting, d.raw).None?
  {
  }

  lemma KeptGate(setting: Setting, target: CacheId, s: State, t: State, id: nat, c: Call, d: Call)
    requires Agree(target, s, t) && id in s.calls && c == s.calls[id] && id in t.calls && d == t.calls[id]
    requires c.pc == Placed && d.pc == Placed && UsesCache(c.raw, target)
    ensures Agree(target, GateStep(setting, s, id, c), GateStep(setting, t, id, d))
  {
    var s', t' := GateStep(setting, s, id, c), GateStep(setting, t, id, d);
    var c', d' := GatedCall(setting, s, c), GatedCall(setting, t, d);
    GateAgrees(setting, target, s, t, c, d);
    if KeyFor(setting, c.raw).Some? {
      DupUpdate(target, s.dup, t.dup, KeyFor(setting, c.raw).value, UnixMilli(c.raw.timestampMs), s.now);
    }
    assert DupAgree(target, s'.dup, t'.dup);
    assert s'.calls == s.calls[id := c'] && s'.metas == s.metas && s'.slots == s.slots && s'.sinks == s.sinks;
    assert t'.calls == t.calls[id := d'] && t'.metas == t.metas && t'.slots == t.slots && t'.sinks == t.sinks;
    CallsUpdate(target, s.calls, t.calls, id, c', d');
    MetasUpdate(target, s, t, id, c', s.metas, t.metas);
  }

  lemma KeptAge(setting: Setting, target: CacheId, s: State, t: State, id: nat, c: Call, d: Call)
    requires setting.wallclock.Valid() && Agree(target, s, t)
    requires id in s.calls && c == s.calls[id] && id in t.calls && d == t.calls[id] && SameCall(c, d)
    requires c.pc == Gated && UsesCache(c.raw, target)
    ensures Agree(target, AgeStep(setting, s, id, c), AgeStep(setting, t, id, d))
  {
  }

  lemma KeptExport(setting: Setting, target: CacheId, s: State, t: State, id: nat, c: Call, d: Call)
    requires setting.wallclock.Valid() && Agree(target, s, t)
    requires id in s.calls && c == s.calls[id] && id in t.calls && d == t.calls[id] && SameCall(c, d)
    requires UsesCache(c.raw, target) && Rank(c.pc) >= 4
    ensures Agree(target, ExportStep(setting, s, id, c), ExportStep(setting, t, id, d))
  {
    var s', t' := ExportStep(setting, s, id, c), ExportStep(setting, t, id, d);
    var c', d' := ExportingCall(|s.sinks|, c), ExportingCall(|t.sinks|, d);
    assert s'.calls == s.calls[id := c'] && s'.dup == s.dup && s'.slots == s.slots && |s'.sinks| == |s.sinks|;
    assert t'.calls == t.calls[id := d'] && t'.dup == t.dup && t'.slots == t.slots && |t'.sinks| == |t.sinks|;
    CallsUpdate(target, s.calls, t.calls, id, c', d');
    MetasUpdate(target, s, t, id, c', ExportingMetas(setting, s.metas, id, c), ExportingMetas(setting, t.metas, id, d));
  }

  lemma KeptCallAgrees(setting: Setting, target: CacheId, s: State, t: State, id: nat)
    requires setting.wallclock.Valid() && Agree(target, s, t)
    requires id in s.calls && UsesCache(s.calls[id].raw, target)
    ensures Agree(target, AdvanceStep(setting, s, id), AdvanceStep(setting, t, id))
  {
    var c, d := s.calls[id], t.calls[id];
    assert SameCall(c, d);
    match c.pc
    case Entered => KeptMeter(target, s, t, id, c, d);
    case Metered => KeptPlace(target, s, t, id, c, d);
    case Placed => KeptGate(setting, target, s, t, id, c, d);
    case Gated => KeptAge(setting, target, s, t, id, c, d);
    case _ => KeptExport(setting, target, s, t, id, c, d);
  }

  /** A step that no kept call can notice: of a deleted call, or past the gate of a recorder. */
  ghost predicate Unnoticed(target: CacheId, s: State, s': State, id: nat) {
    && id in s.calls && id in s'.calls && s'.calls == s.calls[id := s'.calls[id]] && s'.calls[id].raw == s.calls[id].raw
    && s'.now == s.now && s'.drift == s.drift && |s'.sinks| == |s.sinks|
    && (forall key: DupKey :: key.cache == target ==>
          (key in s'.dup <==> key in s.dup) && (key in s.dup ==> s'.dup[key] == s.dup[key]))
    && (NeedsSlots(target) ==> s'.slots == s.slots)
    && (forall o :: o != id ==> (o in s'.metas <==> o in s.metas) && (o in s.metas ==> s'.metas[o] == s.metas[o]))
  }

  lemma UnnoticedAgrees(target: CacheId, s: State, s': State, t: State, id: nat)
    requires Agree(target, s, t) && Unnoticed(target, s, s', id) && !UsesCache(s.calls[id].raw, target)
    requires id !in t.calls
    ensures Agree(target, s', t)
  {
  }

  lemma BothUnnoticedAgree(target: CacheId, s: State, s': State, t: State, t': State, id: nat)
    requires Agree(target, s, t) && Unnoticed(target, s, s', id) && Unnoticed(target, t, t', id)
    requires !UsesCache(s.calls[id].raw, target) && Rank(s'.calls[id].pc) >= 3 && Rank(t'.calls[id].pc) >= 3
    ensures Agree(target, s', t')
  {
    CallsUpdate(target, s.calls, t.calls, id, s'.calls[id], t'.calls[id]);
    MetasUpdate(target, s, t, id, s'.calls[id], s'.metas, t'.metas);
  }

  lemma GateUnnoticed(setting: Setting, target: CacheId, s: State, id: nat, c: Call)
    requires id in s.calls && c == s.calls[id] && !UsesCache(c.raw, target)
    ensures Unnoticed(target, s, GateStep(setting, s, id, c), id)
    ensures Rank(GateStep(setting, s, id, c).calls[id].pc) >= 3
  {
  }

  lemma PlaceUnnoticed(target: CacheId, s: State, id: nat, c: Call)
    requires id in s.calls && c == s.calls[id] && Remnant(target, c.raw).None?
    ensures Unnoticed(target, s, PlaceStep(s, id, c), id)
  {
  }

  lemma ExportUnnoticed(setting: Setting, target: CacheId, s: State, id: nat, c: Call)
    requires setting.wallclock.Valid() && c.raw.Parsed() && id in s.calls && c == s.calls[id] && Rank(c.pc) >= 4
    ensures Unnoticed(target, s, ExportStep(setting, s, id, c), id)
    ensures Rank(ExportStep(setting, s, id, c).calls[id].pc) >= 3
  {
  }

  lemma OtherStepsUnnoticed(setting: Setting, target: CacheId, s: State, id: nat)
    requires setting.wallclock.Valid() && id in s.calls && !UsesCache(s.calls[id].raw, target)
    requires s.calls[id].pc == Metered ==> Remnant(target, s.calls[id].raw).None?
    ensures Unnoticed(target, s, AdvanceStep(setting, s, id), id)
    ensures Rank(s.calls[id].pc) >= 2 ==> Rank(AdvanceStep(setting, s, id).calls[id].pc) >= 3
  {
    var c := s.calls[id];
    match c.pc
    case Entered => assert Unnoticed(target, s, MeterStep(s, id, c), id);
    case Metered => PlaceUnnoticed(target, s, id, c);
    case Placed => GateUnnoticed(setting, target, s, id, c);
    case Gated => assert Unnoticed(target, s, AgeStep(setting, s, id, c), id);
    case _ =>
      if c.raw.Parsed() { ExportUnnoticed(setting, target, s, id, c); } else { assert Unnoticed(target, s, s, id); }
  }

  /** A deleted call, or one reduced to its recording, makes no difference. */
  lemma OtherCallAgrees(setting: Setting, target: CacheId, s: State, t: State, id: nat)
    requires setting.wallclock.Valid() && Agree(target, s, t)
    requires id in s.calls && !UsesCache(s.calls[id].raw, target)
    ensures Agree(target, AdvanceStep(setting, s, id), AdvanceStep(setting, t, id))
  {
    var c := s.calls[id];
    if Remnant(target, c.raw).None? {
      OtherStepsUnnoticed(setting, target, s, id);
      UnnoticedAgrees(target, s, AdvanceStep(setting, s, id), t, id);
    } else {
      var d := t.calls[id];
      assert SameRecorder(c, d);
      if c.pc == Entered {
        KeptMeter(target, s, t, id, c, d);
      } else if c.pc == Metered {
        KeptPlace(target, s, t, id, c, d);
      } else {
        OtherStepsUnnoticed(setting, target, s, id);
        OtherStepsUnnoticed(setting, target, t, id);
        BothUnnoticedAgree(target, s, AdvanceStep(setting, s, id), t, AdvanceStep(setting, t, id), id);
      }
    }
  }

  /** The projected run's answer to an action. */
  ghost function ProjectedStep(setting: Setting, target: CacheId, t: State, a: Action): State
    requires setting.wallclock.Valid()
  {
    if !a.Enter? then Apply(setting, t, a)
    else
      match Remnant(target, a.raw)
      case None => t
      case Some(raw) => Apply(setting, t, Enter(a.id, raw))
  }

  lemma CallsEnter(target: CacheId, calls: Calls, kept: Calls, id: nat, raw: Raw)
    requires CallsAgree(target, calls, kept) && id !in calls
    ensures Remnant(target, raw).None? ==> CallsAgree(target, calls[id := NewCall(raw)], kept)
    ensures Remnant(target, raw).Some? ==>
              && id !in kept
              && CallsAgree(target, calls[id := NewCall(raw)], kept[id := NewCall(Remnant(target, raw).value)])
  {
  }

  lemma MetasEnter(target: CacheId, calls: Calls, metas: map<nat, Meta>, kept: map<nat, Meta>, id: nat, raw: Raw)
    requires MetasAgree(target, calls, metas, kept) && id !in calls
    ensures MetasAgree(target, calls[id := NewCall(raw)], metas, kept)
  {
  }

  lemma EnterAgrees(setting: Setting, target: CacheId, s: State, t: State, a: Action)
    requires setting.wallclock.Valid() && Agree(target, s, t) && a.Enter? && a.id !in s.calls
    ensures Agree(target, Apply(setting, s, a), ProjectedStep(setting, target, t, a))
  {
    CallsEnter(target, s.calls, t.calls, a.id, a.raw);
    MetasEnter(target, s.calls, s.metas, t.metas, a.id, a.raw);
  }

  lemma EnvironmentAgrees(setting: Setting, target: CacheId, s: State, t: State, a: Action)
    requires setting.wallclock.Valid() && Agree(target, s, t) && !a.Enter? && !a.Advance?
    ensures Agree(target, Apply(setting, s, a), Apply(setting, t, a))
  {
  }

  /** Only entered calls exist. */
  lemma {:induction false} CallsWereEntered(setting: Setting, sinks: nat, start: Time, actions: seq<Action>, id: nat)
    requires setting.wallclock.Valid() && id in Run(setting, Init(sinks, start), actions).calls
    ensures exists i :: 0 <= i < |actions| && actions[i].Enter? && actions[i].id == id
  {
    var n := |actions| - 1;
    var before := Run(setting, Init(sinks, start), actions[..n]);
    KeysAfter(setting, before, actions[n]);
    if id in before.calls {
      CallsWereEntered(setting, sinks, start, actions[..n], id);
      var i :| 0 <= i < n && actions[..n][i].Enter? && actions[..n][i].id == id;
      assert actions[i].Enter?;
    }
  }

  lemma KeysAfter(setting: Setting, s: State, a: Action)
    requires setting.wallclock.Valid()
    ensures Apply(setting, s, a).calls.Keys == s.calls.Keys + if a.Enter? then {a.id} else {}
  {
    if a.Advance? && a.id in s.calls {
      assert AdvanceStep(setting, s, a.id).calls.Keys == s.calls.Keys + {a.id};
    }
  }

  lemma RunProjected(setting: Setting, target: CacheId, t: State, actions: seq<Action>)
    requires setting.wallclock.Valid() && actions != []
    ensures var n := |actions| - 1;
            Run(setting, t, Project(target, actions))
            == ProjectedStep(setting, target, Run(setting, t, Project(target, actions[..n])), actions[n])
  {
  }

  lemma ActionAgrees(setting: Setting, target: CacheId, s: State, t: State, a: Action)
    requires setting.wallclock.Valid() && Agree(target, s, t) && (a.Enter? ==> a.id !in s.calls)
    ensures Agree(target, Apply(setting, s, a), ProjectedStep(setting, target, t, a))
  {
    if a.Advance? {
      AdvanceAgrees(setting, target, s, t, a.id);
    } else if a.Enter? {
      EnterAgrees(setting, target, s, t, a);
    } else {
      EnvironmentAgrees(setting, target, s, t, a);
    }
  }

  lemma {:induction false} OtherCachesDoNotMatter(setting: Setting, target: CacheId, sinks: nat, start: Time,
                                                  actions: seq<Action>)
    requires setting.wallclock.Valid() && DistinctCalls(actions)
    ensures Agree(target, Run(setting, Init(sinks, start), actions),
                  Run(setting, Init(sinks, start), Project(target, actions)))
  {
    if actions != [] {
      var rest, a := actions[..|actions| - 1], actions[|actions| - 1];
      OtherCachesDoNotMatter(setting, target, sinks, start, rest);
      var s, t := Run(setting, Init(sinks, start), rest), Run(setting, Init(sinks, start), Project(target, rest));
      if a.Enter? && a.id in s.calls { CallsWereEntered(setting, sinks, start, rest, a.id); }
      ActionAgrees(setting, target, s, t, a);
      RunProjected(setting, target, Init(sinks, start), actions);
    }
  }

  lemma AdvanceAgrees(setting: Setting, target: CacheId, s: State, t: State, id: nat)
    requires setting.wallclock.Valid() && Agree(target, s, t)
    ensures Agree(target, AdvanceStep(setting, s, id), AdvanceStep(setting, t, id))
  {
    if id in s.calls {
      if UsesCache(s.calls[id].raw, target) {
        KeptCallAgrees(setting, target, s, t, id);
      } else {
        OtherCallAgrees(setting, target, s, t, id);
      }
    }
  }

  // ----- the same, by event type -----

  /** A completion rejected for its enum, which only tells the slot cache what `raw` tells it. */
  function Recording(raw: Raw): Raw
    requires TellsSlot(raw)
  {
    DataColumnCompleted(raw.timestampMs, raw.slot, raw.blockRoot, 0, "", "")
  }

  /** The run without the calls of other types than that of `like`. If that is one of the two types that ask
      the slot cache, a call that tells it a slot is not deleted but reduced to that. */
  function OnlyType(like: Raw, actions: seq<Action>): seq<Action> {
    if actions == [] then []
    else
      var rest, a := OnlyType(like, actions[..|actions| - 1]), actions[|actions| - 1];
      if !a.Enter? || SameType(a.raw, like) then rest + [a]
      else if (like.PartialDataColumn? || like.PartialOutcome?) && TellsSlot(a.raw) then
        rest + [Enter(a.id, Recording(a.raw))]
      else rest
  }

  lemma {:induction false} OnlyTypeProjects(like: Raw, actions: seq<Action>)
    requires like.Parsed()
    ensures OnlyType(like, actions) == Project(CacheOf(like), actions)
  {
    if actions != [] {
      var a := actions[|actions| - 1];
      OnlyTypeProjects(like, actions[..|actions| - 1]);
      if a.Enter? && a.raw.Parsed() { CachesByType(a.raw, like); }
    }
  }

  /** The kept calls: the same step reached, the same slot, readings, drift, outcome and deliveries, and the
      same client metadata. Only their positions in the shared histories may differ. */
  ghost predicate TypeAgrees(like: Raw, s: State, t: State) {
    forall id :: id in s.calls && SameType(s.calls[id].raw, like) ==>
      && id in t.calls
      && t.calls[id] == s.calls[id].(placement := t.calls[id].placement, arrival := t.calls[id].arrival)
      && (Rank(s.calls[id].pc) >= 1 ==> id in s.metas && id in t.metas && t.metas[id] == s.metas[id])
  }

  /** For every type, counting the two data column sidecar types as one: its calls decide alike, and end with
      alike metadata, whether or not the calls of all other types are made. For parts and verdicts what matters
      of the others is the slots they tell, and nothing else about them. */
  lemma OthersDoNotMatter(setting: Setting, like: Raw, sinks: nat, start: Time, actions: seq<Action>)
    requires setting.wallclock.Valid() && DistinctCalls(actions) && !like.Malformed? && !like.Unsupported?
    ensures TypeAgrees(like, Run(setting, Init(sinks, start), actions),
                       Run(setting, Init(sinks, start), OnlyType(like, actions)))
  {
    hide Run, Project, OnlyType;
    var s := Run(setting, Init(sinks, start), actions);
    OnlyTypeProjects(like, actions);
    OtherCachesDoNotMatter(setting, CacheOf(like), sinks, start, actions);
    forall id | id in s.calls && SameType(s.calls[id].raw, like) ensures UsesCache(s.calls[id].raw, CacheOf(like)) {
      CachesByType(s.calls[id].raw, like);
    }
  }
}

/** The two levels meet: the transition system, run one call at a time, is the sequential handler. */
module Serial {
  import opened Base
  import opened Ttl
  import opened Slots
  import opened Chain
  import opened Events
  import opened Machine
  import opened Invariants
  import opened Summary
  import opened Sequential
  import Race = SummaryRace

  // ----- the histories of one duplicate cache -----

  /** The uses of one duplicate cache, of all the gate uses. */
  function LogOf(uses: UseLog, id: CacheId): GateLog {
    if uses == [] then []
    else
      var rest, u := LogOf(uses[..|uses| - 1], id), uses[|uses| - 1];
      if u.key.cache == id then rest + [Use(u.key.key, u.value, u.at)] else rest
  }

  lemma LogOfAppend(uses: UseLog, u: Use<DupKey, Time>, id: CacheId)
    ensures LogOf(uses + [u], id)
            == if u.key.cache == id then LogOf(uses, id) + [Use(u.key.key, u.value, u.at)] else LogOf(uses, id)
  {
  }

  lemma SeenAppend<K, V>(log: seq<Use<K, V>>, u: Use<K, V>, k: K, ttl: int, now: int)
    ensures Seen(log + [u], k, ttl, now) <==> Seen(log, k, ttl, now) || (u.key == k && now - u.at <= ttl)
  {
    var log' := log + [u];
    if Seen(log, k, ttl, now) {
      var i :| 0 <= i < |log| && log[i].key == k && now - log[i].at <= ttl;
      assert log'[i].key == k && now - log'[i].at <= ttl;
    }
    if u.key == k && now - u.at <= ttl { assert log'[|log|] == u; }
  }

  /** A cache's own history answers for it. */
  lemma {:induction false} LogOfAnswers(uses: UseLog, key: DupKey, ttl: int, now: int)
    ensures Seen(uses, key, ttl, now) <==> Seen(LogOf(uses, key.cache), key.key, ttl, now)
    ensures LastUse(LogOf(uses, key.cache), key.key)
            == match LastUse(uses, key) case None => None case Some(u) => Some(Use(key.key, u.value, u.at))
  {
    if uses != [] {
      var rest, u := uses[..|uses| - 1], uses[|uses| - 1];
      assert uses == rest + [u];
      LogOfAnswers(rest, key, ttl, now);
      SeenAppend(rest, u, key, ttl, now);
      if u.key.cache == key.cache {
        var log, v := LogOf(rest, key.cache), Use(u.key.key, u.value, u.at);
        SeenAppend(log, v, key.key, ttl, now);
        assert (log + [v])[..|log|] == log;
      }
    }
  }

  // ----- what a state has in common with a sequential world -----

  ghost predicate DupMatches(uses: UseLog, dup: map<CacheId, GateLog>) {
    forall id: CacheId :: id in dup && dup[id] == LogOf(uses, id)
  }

  function ShownAs(e: Event, m: Meta): Record { Record(e.name, e.raw, e.dateTime, m.clockDrift, m.timing) }

  ghost predicate SinkShows(sink: seq<Event>, metas: map<nat, Meta>, records: seq<Record>) {
    && |sink| == |records|
    && (forall i :: 0 <= i < |sink| ==>
          && sink[i].call in metas
          && records[i] == ShownAs(sink[i], metas[sink[i].call]))
  }

  ghost predicate SinksShow(sinks: seq<seq<Event>>, metas: map<nat, Meta>, records: seq<Record>) {
    forall k :: 0 <= k < |sinks| ==> SinkShows(sinks[k], metas, records)
  }

  ghost predicate CountersMatch(counters: Race.Counters, adds: seq<Add>, exported: nat) {
    && counters.pending == map[] && counters.printer.Idle?
    && counters.table == TableOf(adds) && counters.exported == Wrap(exported)
  }

  /** Same histories, same summary, and in every sink the same records. */
  ghost predicate Matches(s: State, w: World) {
    && DupMatches(s.uses, w.dup) && s.recordings == w.slots
    && SinksShow(s.sinks, s.metas, w.records)
    && CountersMatch(s.counters, w.adds, w.exported)
  }

  // ----- one call, uninterrupted -----

  function Advances(id: nat, n: nat): seq<Action> { seq(n, _ => Advance(id)) }

  function MoveAt(id: nat, at: Time, rest: seq<Action>): seq<Action> { [Tick(at)] + ([Advance(id)] + rest) }

  /** Enter and load the drift; then slot cache, gate and age check at their clock readings; then `n` steps. */
  function Approach(id: nat, raw: Raw, r: Readings, n: nat): seq<Action> {
    [Enter(id, raw)] + ([Advance(id)]
      + MoveAt(id, r.placedAt, MoveAt(id, r.gateAt, MoveAt(id, r.ageAt, Advances(id, n)))))
  }

  /** A whole call: as many steps after the age check as exporting takes. */
  function Serve(sinks: nat, id: nat, raw: Raw, r: Readings): seq<Action> { Approach(id, raw, r, 5 + sinks) }

  lemma RunCons(setting: Setting, s: State, a: Action, rest: seq<Action>)
    requires setting.wallclock.Valid()
    ensures Run(setting, s, [a] + rest) == Run(setting, Apply(setting, s, a), rest)
  {
    RunConcat(setting, s, [a], rest);
    assert [a][..0] == [];
  }

  /** The clock moves on to `at`, and the call takes a step. */
  ghost function StepAt(setting: Setting, s: State, id: nat, at: Time): State
    requires setting.wallclock.Valid()
  {
    AdvanceStep(setting, s.(now := at), id)
  }

  lemma StepAtRun(setting: Setting, s: State, id: nat, at: Time, rest: seq<Action>)
    requires setting.wallclock.Valid() && s.now <= at
    ensures Run(setting, s, MoveAt(id, at, rest)) == Run(setting, StepAt(setting, s, id, at), rest)
  {
    RunCons(setting, s, Tick(at), [Advance(id)] + rest);
    RunCons(setting, s.(now := at), Advance(id), rest);
  }

  lemma TickInv(setting: Setting, s: State, at: Time)
    requires setting.wallclock.Valid() && Inv(setting, s) && s.now <= at
    ensures Inv(setting, s.(now := at))
  {
  }

  lemma StepAtInv(setting: Setting, s: State, id: nat, at: Time)
    requires setting.wallclock.Valid() && Inv(setting, s) && s.now <= at
    ensures Inv(setting, StepAt(setting, s, id, at))
  {
    TickInv(setting, s, at);
    if id in s.calls { AdvanceInv(setting, s.(now := at), id); }
  }

  /** A call that has entered and loaded the drift. */
  function EnteredState(s: State, id: nat, raw: Raw): State { MeterStep(Update(s, id, NewCall(raw)), id, NewCall(raw)) }

  lemma EnterRun(setting: Setting, s: State, id: nat, raw: Raw, rest: seq<Action>)
    requires setting.wallclock.Valid() && id !in s.calls
    ensures Run(setting, s, [Enter(id, raw)] + ([Advance(id)] + rest)) == Run(setting, EnteredState(s, id, raw), rest)
  {
    RunCons(setting, s, Enter(id, raw), [Advance(id)] + rest);
    RunCons(setting, Update(s, id, NewCall(raw)), Advance(id), rest);
  }

  lemma EnterInv(setting: Setting, s: State, id: nat, raw: Raw)
    requires setting.wallclock.Valid() && Inv(setting, s) && id !in s.calls
    ensures Inv(setting, EnteredState(s, id, raw))
  {
    EnterStep(setting, s, id, raw);
    MeterKeepsInv(setting, Update(s, id, NewCall(raw)), id);
  }

  /** It leaves no trace in the histories. */
  lemma EnterMatches(setting: Setting, s: State, w: World, id: nat, raw: Raw)
    requires SinksHoldCalls(s.sinks, s.calls) && Matches(s, w) && id !in s.calls
    ensures Matches(EnteredState(s, id, raw), w)
  {
  }

  /** The slot cache answers and records as the sequential handler's does. */
  lemma PlaceMatches(setting: Setting, s: State, w: World, id: nat, at: Time)
    requires Tracks(s.slots, s.recordings, Fixed(BLOCK_SLOT_TTL), at) && Matches(s, w) && s.now == at
    requires id in s.calls && s.calls[id].pc == Metered
    ensures var c := s.calls[id];
            && Matches(PlaceStep(s, id, c), w.(slots := SlotsAfter(w.slots, c.raw, at)))
            && PlacedCall(s, c).slot == EffectiveSlot(w.slots, c.raw, at)
  {
    var c := s.calls[id];
    if c.raw.Feeds() { ResolveRefinesLog(s.slots, s.recordings, c.raw.blockRoot, c.raw.slot, at); }
  }

  /** The gate's use is noted of every event that has a cache to go to. */
  ghost function AfterGate(setting: Setting, w: World, raw: Raw, at: Time): World {
    if raw.Parsed() then w.(dup := DupAfter(setting, w.dup, raw, at)) else w
  }

  /** So does the duplicate cache. */
  lemma GateMatches(setting: Setting, s: State, w: World, id: nat, at: Time)
    requires Tracks(s.dup, s.uses, TtlOf, at) && Matches(s, w) && s.now == at
    requires id in s.calls && s.calls[id].pc == Placed
    ensures var c := s.calls[id];
            && Matches(GateStep(setting, s, id, c), AfterGate(setting, w, c.raw, at))
            && var c' := GatedCall(setting, s, c);
               match KeyOf(setting, c.raw)
               case Err(e) => c'.pc == Finished && c'.outcome == Some(Failed(e))
               case Ok(key) =>
                 if SeenIn(w.dup, c.raw, key, at) then c'.pc == Finished && c'.outcome == Some(Ignored)
                 else c'.pc == Gated
  {
    var c := s.calls[id];
    if KeyFor(setting, c.raw).Some? { GateLogs(setting, s, w, c.raw, at); }
  }

  lemma GateLogs(setting: Setting, t: State, w: World, raw: Raw, at: Time)
    requires DupMatches(t.uses, w.dup) && KeyFor(setting, raw).Some? && t.now == at && Tracks(t.dup, t.uses, TtlOf, at)
    ensures var key := KeyFor(setting, raw).value;
            && (Live(t.dup, key, at) <==> SeenIn(w.dup, raw, key.key, at))
            && DupMatches(t.uses + [Use(key, Settled(t.dup, key, UnixMilli(raw.timestampMs), at), at)],
                          DupAfter(setting, w.dup, raw, at))
  {
    var key, stamp := KeyFor(setting, raw).value, UnixMilli(raw.timestampMs);
    var u := Use(key, Settled(t.dup, key, stamp, at), at);
    LogOfAnswers(t.uses, key, TtlOf(key), at);
    LiveIffSeen(t.dup, t.uses, TtlOf, at, key);
    LastUseIsLast(t.uses, key);
    forall id: CacheId ensures LogOf(t.uses + [u], id) == DupAfter(setting, w.dup, raw, at)[id] {
      LogOfAppend(t.uses, u, id);
    }
  }

  // ----- from the age check to the last sink -----

  function Iterate<S>(f: S -> S, s: S, n: nat): S {
    if n == 0 then s else f(Iterate(f, s, n - 1))
  }

  lemma {:induction false} IterateAdd<S>(f: S -> S, s: S, m: nat, n: nat)
    ensures Iterate(f, s, m + n) == Iterate(f, Iterate(f, s, m), n)
  {
    if n > 0 { IterateAdd(f, s, m, n - 1); }
  }

  lemma IterateThen<S>(f: S -> S, s: S, t: S, u: S, m: nat, n: nat)
    requires Iterate(f, s, m) == t && Iterate(f, t, n) == u
    ensures Iterate(f, s, m + n) == u
  {
    IterateAdd(f, s, m, n);
  }

  lemma {:induction false} IterateFixed<S>(f: S -> S, s: S, n: nat)
    requires f(s) == s
    ensures Iterate(f, s, n) == s
  {
    if n > 0 { IterateFixed(f, s, n - 1); }
  }

  /** A call's next step, as a function of the state. */
  function Stepper(setting: Setting, id: nat): State -> State
    requires setting.wallclock.Valid()
  {
    (s: State) => AdvanceStep(setting, s, id)
  }

  /** The call takes `n` steps with nothing in between. */
  function Steps(setting: Setting, s: State, id: nat, n: nat): State
    requires setting.wallclock.Valid()
  {
    Iterate(Stepper(setting, id), s, n)
  }

  lemma {:induction false} StepsRun(setting: Setting, s: State, id: nat, n: nat)
    requires setting.wallclock.Valid()
    ensures Run(setting, s, Advances(id, n)) == Steps(setting, s, id, n)
  {
    if n > 0 {
      StepsRun(setting, s, id, n - 1);
      assert Advances(id, n)[..n - 1] == Advances(id, n - 1);
    }
  }

  lemma FinishedStays(setting: Setting, s: State, id: nat, n: nat)
    requires setting.wallclock.Valid() && id in s.calls && s.calls[id].pc == Finished
    ensures Steps(setting, s, id, n) == s
  {
    assert s.calls[id := s.calls[id]] == s.calls;
    assert AdvanceStep(setting, s, id) == s;
    IterateFixed(Stepper(setting, id), s, n);
  }

  function CountOne(counters: Race.Counters, id: nat, topic: string): Race.Counters {
    Race.StoreTopicStep(Race.LoadTopicStep(Race.AddExportedStep(counters), id, topic), id)
  }

  function CountedState(setting: Setting, s: State, id: nat, c: Call): State
    requires setting.wallclock.Valid() && c.raw.Parsed()
  {
    s.(calls := s.calls[id := c.(pc := Delivering)],
       metas := ExportingMetas(setting, s.metas, id, c),
       counters := CountOne(s.counters, id, Topic(c.raw)))
  }

  /** Decorate, then count. */
  lemma CountSteps(setting: Setting, s: State, id: nat, counting: nat)
    requires setting.wallclock.Valid() && id in s.calls && s.calls[id].pc == Admitted && s.calls[id].raw.Parsed()
    requires counting == 4
    ensures Steps(setting, s, id, counting) == CountedState(setting, s, id, s.calls[id])
  {
    var c := s.calls[id];
    var s1 := ExportStep(setting, s, id, c);
    var s2 := ExportStep(setting, s1, id, c.(pc := Decorated));
    var s3 := ExportStep(setting, s2, id, c.(pc := Counted));
    assert Steps(setting, s, id, 1) == s1;
    assert Steps(setting, s, id, 2) == s2;
    assert Steps(setting, s, id, 3) == s3;
  }

  lemma CountMatches(counters: Race.Counters, id: nat, topic: string, adds: seq<Add>, exported: nat)
    requires CountersMatch(counters, adds, exported)
    ensures CountersMatch(CountOne(counters, id, topic), adds + [Add(topic, 1)], exported + 1)
  {
    WrapAdd(exported, 1);
    TableOfAppend(adds, Add(topic, 1));
  }

  /** The first `k` sinks have been offered the event. */
  function Offered(sinks: seq<seq<Event>>, e: Event, k: nat): seq<seq<Event>> {
    seq(|sinks|, j requires 0 <= j < |sinks| => if j < k then sinks[j] + [e] else sinks[j])
  }

  /** The call has been through the first `k` sinks. */
  function AfterSinks(s: State, id: nat, c: Call, k: nat): State
    requires c.raw.Parsed()
  {
    s.(calls := s.calls[id := c.(delivered := k)], sinks := Offered(s.sinks, EventFor(id, c), k))
  }

  lemma DeliverOne(setting: Setting, s: State, id: nat, c: Call, k: nat)
    requires setting.wallclock.Valid() && c.pc == Delivering && c.raw.Parsed() && k < |s.sinks|
    ensures AdvanceStep(setting, AfterSinks(s, id, c, k), id) == AfterSinks(s, id, c, k + 1)
  {
  }

  lemma {:induction false} DeliverSteps(setting: Setting, s: State, id: nat, k: nat)
    requires setting.wallclock.Valid() && id in s.calls && k <= |s.sinks|
    requires s.calls[id].pc == Delivering && s.calls[id].raw.Parsed() && s.calls[id].delivered == 0
    ensures Steps(setting, s, id, k) == AfterSinks(s, id, s.calls[id], k)
  {
    var c := s.calls[id];
    if k == 0 {
      assert s.calls[id := c] == s.calls && Offered(s.sinks, EventFor(id, c), 0) == s.sinks;
    } else {
      DeliverSteps(setting, s, id, k - 1);
      DeliverOne(setting, s, id, c, k - 1);
    }
  }

  function DeliveredState(s: State, id: nat, c: Call): State
    requires c.raw.Parsed()
  {
    s.(calls := s.calls[id := c.(pc := Finished, delivered := |s.sinks|)],
       sinks := Offered(s.sinks, EventFor(id, c), |s.sinks|))
  }

  lemma DeliverAll(setting: Setting, s: State, id: nat)
    requires setting.wallclock.Valid() && id in s.calls
    requires s.calls[id].pc == Delivering && s.calls[id].raw.Parsed() && s.calls[id].delivered == 0
    ensures Steps(setting, s, id, |s.sinks| + 1) == DeliveredState(s, id, s.calls[id])
  {
    var c := s.calls[id];
    DeliverSteps(setting, s, id, |s.sinks|);
    var t := AfterSinks(s, id, c, |s.sinks|);
    assert AdvanceStep(setting, t, id) == t.(calls := t.calls[id := c.(pc := Finished, delivered := |s.sinks|)]);
  }

  /** The steps of an admitted call add up to its export. */
  lemma ExportSteps(setting: Setting, s: State, id: nat, counting: nat)
    requires setting.wallclock.Valid() && id in s.calls && s.calls[id].delivered == 0 && counting == 4
    requires s.calls[id].pc == Admitted && s.calls[id].raw.Parsed()
    ensures Steps(setting, s, id, counting + (|s.sinks| + 1)) == ExportedState(setting, s, id, s.calls[id])
  {
    var t := CountedState(setting, s, id, s.calls[id]);
    CountSteps(setting, s, id, counting);
    DeliverAll(setting, t, id);
    IterateThen(Stepper(setting, id), s, t, ExportedState(setting, s, id, s.calls[id]), counting, |s.sinks| + 1);
  }

  function ExportedState(setting: Setting, s: State, id: nat, c: Call): State
    requires setting.wallclock.Valid() && c.raw.Parsed()
  {
    DeliveredState(CountedState(setting, s, id, c), id, c.(pc := Delivering))
  }

  /** Every sink shows the new record after the ones it had. */
  lemma OfferedShows(setting: Setting, s: State, id: nat, records: seq<Record>)
    requires setting.wallclock.Valid() && id in s.calls && s.calls[id].delivered == 0 && s.calls[id].raw.Parsed()
    requires SinksHoldCalls(s.sinks, s.calls) && SinksShow(s.sinks, s.metas, records)
    requires s.calls[id].pc == Admitted && MetaOf(setting, s.metas, id, s.calls[id])
    ensures var c := s.calls[id];
            SinksShow(Offered(s.sinks, EventFor(id, c), |s.sinks|), ExportingMetas(setting, s.metas, id, c),
                      records + [RecordOf(setting, c.drift, c.raw, c.slot)])
  {
  }

  lemma ExportMatches(setting: Setting, s: State, w: World, id: nat)
    requires setting.wallclock.Valid() && id in s.calls && s.calls[id].delivered == 0 && s.calls[id].raw.Parsed()
    requires SinksHoldCalls(s.sinks, s.calls) && Matches(s, w)
    requires s.calls[id].pc == Admitted && MetaOf(setting, s.metas, id, s.calls[id])
    ensures var c := s.calls[id];
            Matches(ExportedState(setting, s, id, c),
                    Settle(w, c.raw, Exported, RecordOf(setting, c.drift, c.raw, c.slot)))
  {
    var c := s.calls[id];
    OfferedShows(setting, s, id, w.records);
    CountMatches(s.counters, id, Topic(c.raw), w.adds, w.exported);
    assert EventFor(id, c.(pc := Delivering)) == EventFor(id, c);
  }

  // ----- the whole call -----

  /** The call is over, with this outcome, and no other call, nor the drift, has moved. */
  ghost predicate Over(s: State, s': State, id: nat, raw: Raw, gateAt: Time, outcome: Outcome) {
    && s'.drift == s.drift && |s'.sinks| == |s.sinks|
    && id in s'.calls && s'.calls == s.calls[id := s'.calls[id]]
    && var c := s'.calls[id];
       c.raw == raw && c.gateAt == gateAt && c.outcome == Some(outcome) && c.pc == Finished
  }

  ghost function Rest(setting: Setting, s: State, id: nat, at: Time): State
    requires setting.wallclock.Valid()
  {
    Steps(setting, StepAt(setting, s, id, at), id, 5 + |s.sinks|)
  }

  /** A call that ended at its gate stays as it is. */
  lemma EndedMatches(setting: Setting, s: State, w: World, id: nat, at: Time)
    requires setting.wallclock.Valid() && Matches(s, w) && id in s.calls && s.calls[id].pc == Finished
    ensures Rest(setting, s, id, at) == s.(now := at) && Matches(s.(now := at), w)
  {
    var t := s.(now := at);
    assert t.calls[id := t.calls[id]] == t.calls;
    assert StepAt(setting, s, id, at) == t;
    FinishedStays(setting, t, id, 5 + |s.sinks|);
  }

  lemma AdmittedMatches(setting: Setting, s: State, w: World, id: nat)
    requires setting.wallclock.Valid() && id in s.calls && s.calls[id].delivered == 0 && s.calls[id].raw.Parsed()
    requires SinksHoldCalls(s.sinks, s.calls) && Matches(s, w)
    requires s.calls[id].pc == Admitted && MetaOf(setting, s.metas, id, s.calls[id])
    requires s.calls[id].outcome == Some(Exported)
    ensures var c, s' := s.calls[id], Steps(setting, s, id, 5 + |s.sinks|);
            && Matches(s', Settle(w, c.raw, Exported, RecordOf(setting, c.drift, c.raw, c.slot)))
            && Over(s, s', id, c.raw, c.gateAt, Exported) && s'.now == s.now
  {
    ExportSteps(setting, s, id, 4);
    ExportMatches(setting, s, w, id);
    ExportOver(setting, s, id);
  }

  lemma ExportOver(setting: Setting, s: State, id: nat)
    requires setting.wallclock.Valid() && id in s.calls
    requires s.calls[id].outcome == Some(Exported) && s.calls[id].raw.Parsed()
    ensures var c, s' := s.calls[id], ExportedState(setting, s, id, s.calls[id]);
            Over(s, s', id, c.raw, c.gateAt, Exported) && s'.now == s.now
  {
  }

  lemma AgeFrame(setting: Setting, s: State, id: nat, at: Time)
    requires setting.wallclock.Valid() && id in s.calls && s.calls[id].pc == Gated
    ensures var c, t := s.calls[id], StepAt(setting, s, id, at);
            var outcome := AgeCheck(setting, c.raw, c.slot, at);
            && id in t.calls && t == s.(now := at, calls := s.calls[id := t.calls[id]])
            && t.calls[id] == c.(pc := if outcome.Exported? then Admitted else Finished,
                                 ageAt := at, outcome := Some(outcome))
  {
  }

  /** A call that ended at its age check stays as it is. */
  lemma StaleMatches(setting: Setting, s: State, t: State, w: World, id: nat, outcome: Outcome)
    requires setting.wallclock.Valid() && Matches(s, w) && id in s.calls && id in t.calls
    requires t == s.(now := t.now, calls := s.calls[id := t.calls[id]])
    requires t.calls[id].pc == Finished && t.calls[id].outcome == Some(outcome)
    ensures var c, s' := t.calls[id], Steps(setting, t, id, 5 + |t.sinks|);
            s' == t && Matches(s', w) && Over(s, s', id, c.raw, c.gateAt, outcome)
  {
    FinishedStays(setting, t, id, 5 + |t.sinks|);
  }

  lemma OutcomeMatches(setting: Setting, s: State, t: State, w: World, id: nat, outcome: Outcome)
    requires setting.wallclock.Valid() && Matches(s, w) && id in s.calls && id in t.calls
    requires t == s.(now := t.now, calls := s.calls[id := t.calls[id]])
    requires var c, c' := s.calls[id], t.calls[id];
             && c'.pc == (if outcome.Exported? then Admitted else Finished) && c'.outcome == Some(outcome)
             && c'.raw == c.raw && c'.slot == c.slot && c'.drift == c.drift && c'.gateAt == c.gateAt && c'.raw.Parsed()
    requires outcome.Exported? ==>
               && t.calls[id].delivered == 0 && MetaOf(setting, t.metas, id, t.calls[id])
               && SinksHoldCalls(t.sinks, t.calls)
    ensures var c, s' := s.calls[id], Steps(setting, t, id, 5 + |t.sinks|);
            && Matches(s', Settle(w, c.raw, outcome, RecordOf(setting, c.drift, c.raw, c.slot)))
            && Over(s, s', id, c.raw, c.gateAt, outcome) && s'.now == t.now
  {
    if outcome.Exported? {
      AdmittedMatches(setting, t, w, id);
    } else {
      StaleMatches(setting, s, t, w, id, outcome);
    }
  }

  lemma AdmittedFacts(setting: Setting, s: State, id: nat)
    requires setting.wallclock.Valid() && Inv(setting, s) && id in s.calls && s.calls[id].pc == Admitted
    ensures s.calls[id].delivered == 0 && MetaOf(setting, s.metas, id, s.calls[id]) && SinksHoldCalls(s.sinks, s.calls)
  {
  }

  lemma AgedMatches(setting: Setting, s: State, w: World, id: nat, at: Time)
    requires setting.wallclock.Valid() && Matches(s, w) && id in s.calls && s.calls[id].pc == Gated && s.now <= at
    requires Inv(setting, s) && s.calls[id].raw.Parsed()
    ensures var c, s' := s.calls[id], Rest(setting, s, id, at);
            var outcome := AgeCheck(setting, c.raw, c.slot, at);
            && Matches(s', Settle(w, c.raw, outcome, RecordOf(setting, c.drift, c.raw, c.slot)))
            && Over(s, s', id, c.raw, c.gateAt, outcome) && s'.now == at
  {
    hide AgeCheck, Inv, Matches, Over, Settle, StepAt;
    var c, t := s.calls[id], StepAt(setting, s, id, at);
    AgeFrame(setting, s, id, at);
    StepAtInv(setting, s, id, at);
    if t.calls[id].pc == Admitted { AdmittedFacts(setting, t, id); }
    OutcomeMatches(setting, s, t, w, id, AgeCheck(setting, c.raw, c.slot, at));
  }

  /** The gate, taken at `at`. */
  lemma AtGate(setting: Setting, s: State, w: World, id: nat, at: Time)
    requires setting.wallclock.Valid() && Inv(setting, s) && Matches(s, w) && id in s.calls && s.calls[id].pc == Placed
    requires s.now <= at
    ensures var c, t := s.calls[id], StepAt(setting, s, id, at);
            && Inv(setting, t) && Matches(t, AfterGate(setting, w, c.raw, at))
            && t.now == at && GateEnds(setting, s, t, id, w)
  {
    TickInv(setting, s, at);
    GateMatches(setting, s.(now := at), w, id, at);
    StepAtInv(setting, s, id, at);
    GateFrame(setting, s.(now := at), id, s.calls[id]);
  }

  /** What the gate makes of the call, and of nothing else. */
  ghost predicate GateEnds(setting: Setting, s: State, t: State, id: nat, w: World) {
    && t.drift == s.drift && |t.sinks| == |s.sinks|
    && id in s.calls && id in t.calls && t.calls == s.calls[id := t.calls[id]]
    && var c, c' := s.calls[id], t.calls[id];
       c'.raw == c.raw && c'.slot == c.slot && c'.drift == c.drift && c'.gateAt == t.now
       && match KeyOf(setting, c.raw)
          case Err(e) => c'.pc == Finished && c'.outcome == Some(Failed(e))
          case Ok(key) =>
            if SeenIn(w.dup, c.raw, key, t.now) then c'.pc == Finished && c'.outcome == Some(Ignored)
            else c'.pc == Gated
  }

  lemma OverAfterGate(setting: Setting, s: State, t: State, s': State, id: nat, w: World, outcome: Outcome)
    requires GateEnds(setting, s, t, id, w) && Over(t, s', id, t.calls[id].raw, t.calls[id].gateAt, outcome)
    ensures Over(s, s', id, s.calls[id].raw, t.now, outcome)
  {
  }

  lemma OverAtGate(setting: Setting, s: State, t: State, id: nat, w: World, at: Time)
    requires GateEnds(setting, s, t, id, w) && t.calls[id].pc == Finished && t.calls[id].outcome.Some?
    ensures Over(s, t.(now := at), id, s.calls[id].raw, t.now, t.calls[id].outcome.value)
  {
  }

  /** From the gate on. */
  lemma GatedMatches(setting: Setting, s: State, t: State, w: World, id: nat, r: Readings)
    requires setting.wallclock.Valid() && Inv(setting, t) && t.now == r.gateAt <= r.ageAt
    requires GateEnds(setting, s, t, id, w)
    requires s.calls[id].raw.Parsed() && Matches(t, w.(dup := DupAfter(setting, w.dup, s.calls[id].raw, r.gateAt)))
    ensures var c, s' := s.calls[id], Rest(setting, t, id, r.ageAt);
            && Matches(s', Finish(setting, w, c.drift, c.raw, c.slot, r)) && s'.now == r.ageAt
            && Over(s, s', id, c.raw, r.gateAt, Judge(setting, w.dup, c.raw, c.slot, r.gateAt, r.ageAt))
  {
    hide Inv, Matches, Over, Rest, AgeCheck, DupAfter;
    var w' := w.(dup := DupAfter(setting, w.dup, s.calls[id].raw, r.gateAt));
    if t.calls[id].pc == Gated {
      AgedMatches(setting, t, w', id, r.ageAt);
      OverAfterGate(setting, s, t, Rest(setting, t, id, r.ageAt), id, w,
                    AgeCheck(setting, t.calls[id].raw, t.calls[id].slot, r.ageAt));
    } else {
      EndedMatches(setting, t, w', id, r.ageAt);
      OverAtGate(setting, s, t, id, w, r.ageAt);
    }
  }

  lemma UnparsedMatches(setting: Setting, s: State, t: State, w: World, id: nat, r: Readings)
    requires setting.wallclock.Valid() && t.now == r.gateAt <= r.ageAt && GateEnds(setting, s, t, id, w)
    requires !s.calls[id].raw.Parsed() && Matches(t, w)
    ensures var raw, s' := s.calls[id].raw, Rest(setting, t, id, r.ageAt);
            Matches(s', w) && s'.now == r.ageAt && Over(s, s', id, raw, r.gateAt, OutcomeOf(setting, w, raw, r))
  {
    EndedMatches(setting, t, w, id, r.ageAt);
  }

  lemma GateSinks(setting: Setting, s: State, t: State, id: nat, w: World)
    requires GateEnds(setting, s, t, id, w)
    ensures |t.sinks| == |s.sinks|
  {
  }

  lemma GateFrame(setting: Setting, s: State, id: nat, c: Call)
    requires id in s.calls && c == s.calls[id]
    ensures var s', c' := GateStep(setting, s, id, c), GatedCall(setting, s, c);
            && s'.calls == s.calls[id := c'] && s'.now == s.now && s'.drift == s.drift && |s'.sinks| == |s.sinks|
            && c'.raw == c.raw && c'.slot == c.slot && c'.drift == c.drift && c'.gateAt == s.now
  {
  }

  /** The slot cache's part of the call, taken at `at`, and what it makes of the call. */
  ghost predicate PlaceEnds(s: State, t: State, id: nat, raw: Raw, slot: u64) {
    && t.drift == s.drift && |t.sinks| == |s.sinks| && id in t.calls && t.calls == s.calls[id := t.calls[id]]
    && var c := t.calls[id]; c.raw == raw && c.pc == Placed && c.slot == slot && c.drift == s.drift
  }

  lemma OverAfterPlace(s: State, t: State, s': State, id: nat, raw: Raw, slot: u64, gateAt: Time, outcome: Outcome)
    requires PlaceEnds(s, t, id, raw, slot) && Over(t, s', id, raw, gateAt, outcome)
    ensures Over(s, s', id, raw, gateAt, outcome)
  {
  }

  lemma AtPlace(setting: Setting, s: State, w: World, id: nat, raw: Raw, at: Time)
    requires setting.wallclock.Valid() && Inv(setting, s) && Matches(s, w) && id !in s.calls && s.now <= at
    ensures var t := StepAt(setting, EnteredState(s, id, raw), id, at);
            && Inv(setting, t) && Matches(t, w.(slots := SlotsAfter(w.slots, raw, at))) && t.now == at
            && PlaceEnds(s, t, id, raw, EffectiveSlot(w.slots, raw, at))
  {
    var s1 := EnteredState(s, id, raw);
    EnterInv(setting, s, id, raw);
    EnterMatches(setting, s, w, id, raw);
    StepAtInv(setting, s1, id, at);
    TickInv(setting, s1, at);
    PlaceAt(setting, s, w, id, raw, at);
  }

  lemma PlaceAt(setting: Setting, s: State, w: World, id: nat, raw: Raw, at: Time)
    requires setting.wallclock.Valid() && Tracks(s.slots, s.recordings, Fixed(BLOCK_SLOT_TTL), at)
    requires Matches(EnteredState(s, id, raw), w)
    ensures var t := StepAt(setting, EnteredState(s, id, raw), id, at);
            && Matches(t, w.(slots := SlotsAfter(w.slots, raw, at))) && t.now == at
            && PlaceEnds(s, t, id, raw, EffectiveSlot(w.slots, raw, at))
  {
    var s1 := EnteredState(s, id, raw);
    PlaceMatches(setting, s1.(now := at), w, id, at);
    PlaceFrame(s1.(now := at), id, s1.calls[id]);
  }

  lemma ApproachRun(setting: Setting, s: State, id: nat, raw: Raw, r: Readings, n: nat)
    requires setting.wallclock.Valid() && id !in s.calls && s.now <= r.placedAt && r.Ordered()
    ensures var s1 := EnteredState(s, id, raw);
            var s2 := StepAt(setting, s1, id, r.placedAt);
            var s3 := StepAt(setting, s2, id, r.gateAt);
            s2.now <= r.gateAt && s3.now <= r.ageAt
            ==> Run(setting, s, Approach(id, raw, r, n)) == Steps(setting, StepAt(setting, s3, id, r.ageAt), id, n)
  {
    hide Run, StepAt, Steps, MoveAt, Advances;
    var rest4 := Advances(id, n);
    var rest3 := MoveAt(id, r.ageAt, rest4);
    var rest2 := MoveAt(id, r.gateAt, rest3);
    var s1 := EnteredState(s, id, raw);
    var s2 := StepAt(setting, s1, id, r.placedAt);
    var s3 := StepAt(setting, s2, id, r.gateAt);
    EnterRun(setting, s, id, raw, MoveAt(id, r.placedAt, rest2));
    StepAtRun(setting, s1, id, r.placedAt, rest2);
    if s2.now <= r.gateAt && s3.now <= r.ageAt {
      StepAtRun(setting, s2, id, r.gateAt, rest3);
      StepAtRun(setting, s3, id, r.ageAt, rest4);
      StepsRun(setting, StepAt(setting, s3, id, r.ageAt), id, n);
    }
  }

  lemma ServedMatches(setting: Setting, s: State, w: World, id: nat, raw: Raw, r: Readings)
    requires setting.wallclock.Valid() && Inv(setting, s) && Matches(s, w) && id !in s.calls
    requires s.now <= r.placedAt && r.Ordered()
    ensures var s2 := StepAt(setting, EnteredState(s, id, raw), id, r.placedAt);
            var s3 := StepAt(setting, s2, id, r.gateAt);
            var s' := Rest(setting, s3, id, r.ageAt);
            && s2.now == r.placedAt && s3.now == r.gateAt && |s3.sinks| == |s.sinks| && s'.now == r.ageAt
            && Matches(s', Handle(setting, w, s.drift, raw, r))
            && Over(s, s', id, raw, r.gateAt, OutcomeOf(setting, w, raw, r))
  {
    var s2 := StepAt(setting, EnteredState(s, id, raw), id, r.placedAt);
    var s3 := StepAt(setting, s2, id, r.gateAt);
    hide StepAt, Rest, Inv, Matches, GateEnds, Over;
    var s' := Rest(setting, s3, id, r.ageAt);
    var w' := w.(slots := SlotsAfter(w.slots, raw, r.placedAt));
    AtPlace(setting, s, w, id, raw, r.placedAt);
    AtGate(setting, s2, w', id, r.gateAt);
    if raw.Parsed() {
      GatedMatches(setting, s2, s3, w', id, r);
    } else {
      UnparsedMatches(setting, s2, s3, w', id, r);
    }
    GateSinks(setting, s2, s3, id, w');
    OverAfterPlace(s, s2, s', id, raw, s2.calls[id].slot, r.gateAt, OutcomeOf(setting, w, raw, r));
  }

  /** One uninterrupted call of the transition system does to every history, to the summary and to every
      sink what the sequential handler does, and comes to the same outcome. */
  lemma CallIsHandled(setting: Setting, s: State, w: World, id: nat, raw: Raw, r: Readings)
    requires setting.wallclock.Valid() && Inv(setting, s) && Matches(s, w) && id !in s.calls
    requires s.now <= r.placedAt && r.Ordered()
    ensures var s' := Run(setting, s, Serve(|s.sinks|, id, raw, r));
            && Inv(setting, s') && Matches(s', Handle(setting, w, s.drift, raw, r))
            && Over(s, s', id, raw, r.gateAt, OutcomeOf(setting, w, raw, r)) && s'.now == r.ageAt
  {
    hide Run, StepAt, Steps, Approach, Inv, Matches, Over, Handle, OutcomeOf;
    ApproachRun(setting, s, id, raw, r, 5 + |s.sinks|);
    ServedMatches(setting, s, w, id, raw, r);
    RunInv(setting, s, Serve(|s.sinks|, id, raw, r));
  }

  // ----- a call stopped before its end -----

  /** A call that is going to be exported, `n` steps after its age check. */
  lemma ApproachSteps(setting: Setting, s: State, w: World, id: nat, raw: Raw, r: Readings, n: nat) returns (t: State)
    requires setting.wallclock.Valid() && Inv(setting, s) && Matches(s, w) && id !in s.calls
    requires s.now <= r.placedAt && r.Ordered() && raw.Parsed() && OutcomeOf(setting, w, raw, r) == Exported
    ensures Run(setting, s, Approach(id, raw, r, n)) == Steps(setting, t, id, n)
    ensures id in t.calls && t.calls[id].pc == Admitted && t.calls[id].raw == raw
    ensures CountersMatch(t.counters, w.adds, w.exported)
  {
    hide Run, Approach, StepAt, Steps, Inv, AgeCheck;
    var s2 := StepAt(setting, EnteredState(s, id, raw), id, r.placedAt);
    var s3 := StepAt(setting, s2, id, r.gateAt);
    AtPlace(setting, s, w, id, raw, r.placedAt);
    AtGate(setting, s2, w.(slots := SlotsAfter(w.slots, raw, r.placedAt)), id, r.gateAt);
    ApproachRun(setting, s, id, raw, r, n);
    AgeFrame(setting, s3, id, r.ageAt);
    t := StepAt(setting, s3, id, r.ageAt);
  }

  /** Decorate, count, and load the topic's count. */
  lemma LoadSteps(setting: Setting, s: State, id: nat, loading: nat)
    requires setting.wallclock.Valid() && id in s.calls && s.calls[id].pc == Admitted && s.calls[id].raw.Parsed()
    requires loading == 3
    ensures Steps(setting, s, id, loading).counters
            == Race.LoadTopicStep(Race.AddExportedStep(s.counters), id, Topic(s.calls[id].raw))
  {
    var c := s.calls[id];
    var s1 := ExportStep(setting, s, id, c);
    var s2 := ExportStep(setting, s1, id, c.(pc := Decorated));
    assert Steps(setting, s, id, 1) == s1;
    assert Steps(setting, s, id, 2) == s2;
  }

  // ----- a batch, one call after the other -----

  function ServeElement(sinks: nat, id: nat, e: Element, r: Readings): seq<Action> {
    match e case Unreadable => [] case Item(raw) => Serve(sinks, id, raw, r)
  }

  /** The i-th element's call is named `first + i`. */
  function Schedule(sinks: nat, first: nat, batch: seq<Element>, readings: seq<Readings>): seq<Action>
    requires |readings| == |batch|
  {
    if batch == [] then []
    else
      var n := |batch| - 1;
      Schedule(sinks, first, batch[..n], readings[..n]) + ServeElement(sinks, first + n, batch[n], readings[n])
  }

  /** The clock after the last of these readings. */
  function LastReading(readings: seq<Readings>, from: Time): Time {
    if readings == [] then from else readings[|readings| - 1].ageAt
  }

  /** The state stands for the world, with calls named below `next` and clock reading at most `at`. */
  ghost predicate StandsFor(setting: Setting, s: State, w: World, next: nat, at: Time)
    requires setting.wallclock.Valid()
  {
    Inv(setting, s) && Matches(s, w) && (forall id :: id in s.calls ==> id < next) && s.now <= at
  }

  lemma StandsLater(setting: Setting, s: State, w: World, next: nat, at: Time, later: Time)
    requires setting.wallclock.Valid() && StandsFor(setting, s, w, next, at) && at <= later
    ensures StandsFor(setting, s, w, next, later)
  {
  }

  lemma OverStands(setting: Setting, s: State, s': State, w': World, id: nat, raw: Raw, gateAt: Time, outcome: Outcome)
    requires setting.wallclock.Valid() && Inv(setting, s') && Matches(s', w') && Over(s, s', id, raw, gateAt, outcome)
    requires forall o :: o in s.calls ==> o < id
    ensures StandsFor(setting, s', w', id + 1, s'.now)
  {
  }

  lemma ElementIsHandled(setting: Setting, s: State, w: World, id: nat, e: Element, r: Readings)
    returns (s': State, w': World)
    requires setting.wallclock.Valid() && StandsFor(setting, s, w, id, r.placedAt) && r.Ordered()
    ensures s' == Run(setting, s, ServeElement(|s.sinks|, id, e, r)) && w' == HandleElement(setting, w, s.drift, e, r)
    ensures StandsFor(setting, s', w', id + 1, r.ageAt) && s'.drift == s.drift && |s'.sinks| == |s.sinks|
  {
    s', w' := Run(setting, s, ServeElement(|s.sinks|, id, e, r)), HandleElement(setting, w, s.drift, e, r);
    if e.Item? {
      CallIsHandled(setting, s, w, id, e.raw, r);
      OverStands(setting, s, s', w', id, e.raw, r.gateAt, OutcomeOf(setting, w, e.raw, r));
    }
  }

  lemma LastFits(readings: seq<Readings>, from: Time)
    requires readings != [] && InOrder(readings, from)
    ensures var n := |readings| - 1;
            && InOrder(readings[..n], from) && readings[n].Ordered()
            && LastReading(readings[..n], from) <= readings[n].placedAt
            && LastReading(readings, from) == readings[n].ageAt
  {
  }

  /** Appending an element's schedule runs on from where the schedule before it ended. */
  lemma RunSchedule(setting: Setting, s: State, w: World, first: nat, batch: seq<Element>, readings: seq<Readings>,
                    mid: State, w': World, s': State)
    requires setting.wallclock.Valid() && |readings| == |batch| > 0
    requires var n := |batch| - 1;
             && mid == Run(setting, s, Schedule(|s.sinks|, first, batch[..n], readings[..n]))
             && w' == HandleAll(setting, w, s.drift, batch[..n], readings[..n])
             && s' == Run(setting, mid, ServeElement(|s.sinks|, first + n, batch[n], readings[n]))
    ensures s' == Run(setting, s, Schedule(|s.sinks|, first, batch, readings))
    ensures HandleAll(setting, w, s.drift, batch, readings)
            == HandleElement(setting, w', s.drift, batch[|batch| - 1], readings[|batch| - 1])
  {
    var n := |batch| - 1;
    hide Run, HandleElement, ServeElement;
    var before := Schedule(|s.sinks|, first, batch[..n], readings[..n]);
    var last := ServeElement(|s.sinks|, first + n, batch[n], readings[n]);
    ScheduleSnoc(|s.sinks|, first, batch, readings);
    HandleAllSnoc(setting, w, s.drift, batch, readings);
    RunConcat(setting, s, before, last);
  }

  lemma ScheduleSnoc(sinks: nat, first: nat, batch: seq<Element>, readings: seq<Readings>)
    requires |readings| == |batch| > 0
    ensures var n := |batch| - 1;
            Schedule(sinks, first, batch, readings)
            == Schedule(sinks, first, batch[..n], readings[..n]) + ServeElement(sinks, first + n, batch[n], readings[n])
  {
  }

  lemma HandleAllSnoc(setting: Setting, w: World, drift: i64, batch: seq<Element>, readings: seq<Readings>)
    requires setting.wallclock.Valid() && |readings| == |batch| > 0
    ensures var n := |batch| - 1;
            HandleAll(setting, w, drift, batch, readings)
            == HandleElement(setting, HandleAll(setting, w, drift, batch[..n], readings[..n]), drift,
                             batch[n], readings[n])
  {
  }

  /** A serial run of the transition system, of any number of calls, is the sequential handling of the batch. */
  lemma {:induction false} BatchIsHandled(setting: Setting, s: State, w: World, first: nat,
                                          batch: seq<Element>, readings: seq<Readings>) returns (s': State, w': World)
    requires setting.wallclock.Valid() && StandsFor(setting, s, w, first, s.now)
    requires |readings| == |batch| && InOrder(readings, s.now)
    ensures s' == Run(setting, s, Schedule(|s.sinks|, first, batch, readings))
    ensures w' == HandleAll(setting, w, s.drift, batch, readings)
    ensures StandsFor(setting, s', w', first + |batch|, LastReading(readings, s.now))
    ensures s'.drift == s.drift && |s'.sinks| == |s.sinks|
  {
    hide StandsFor, InOrder, HandleElement, ServeElement, Machine.Apply;
    if batch == [] { return s, w; }
    hide Run, HandleAll, Schedule;
    var n := |batch| - 1;
    LastFits(readings, s.now);
    var mid, before := BatchIsHandled(setting, s, w, first, batch[..n], readings[..n]);
    StandsLater(setting, mid, before, first + n, LastReading(readings[..n], s.now), readings[n].placedAt);
    s', w' := ElementIsHandled(setting, mid, before, first + n, batch[n], readings[n]);
    RunSchedule(setting, s, w, first, batch, readings, mid, before, s');
  }

  /** It starts where a new handler does. */
  lemma InitStands(setting: Setting, sinks: nat, start: Time)
    requires setting.wallclock.Valid()
    ensures StandsFor(setting, Init(sinks, start), EMPTY, 0, start)
  {
  }
}

/** The summary counters as the pipeline drives them: every run of the pipeline is a run of the counter
    race, and its history counts are numbers of calls. */
module Counting {
  import opened Base
  import opened Chain
  import opened Events
  import opened Machine
  import opened Invariants
  import opened Consequences
  import opened Promises
  import Race = SummaryRace

  predicate WasCounted(c: Call) { c.raw.Parsed() && c.outcome == Some(Exported) && Rank(c.pc) >= 6 }

  predicate WasStored(c: Call, topic: string) {
    c.raw.Parsed() && c.outcome == Some(Exported) && Rank(c.pc) >= 8 && EventName(c.raw) == topic
  }

  /** The calls counted as exported, and those whose unit for a topic is stored. */
  function CountedCalls(calls: Calls): set<nat> { set id | id in calls && WasCounted(calls[id]) }

  function StoredCalls(calls: Calls, topic: string): set<nat> { set id | id in calls && WasStored(calls[id], topic) }

  /** A half-done add belongs to a call that has just loaded its own topic's count. */
  ghost predicate PendingMatches(counters: Race.Counters, calls: Calls) {
    && (forall id :: id in counters.pending <==> id in calls && calls[id].pc == Loaded && calls[id].raw.Parsed())
    && (forall id :: id in counters.pending ==> counters.pending[id].topic == Topic(calls[id].raw))
  }

  /** The action with which a report replaces the summary's map. */
  predicate ResetsCounts(s: State, a: Action) { a.Print? && s.counters.printer.Zeroed? }

  /** No action of the run replaces the summary's map. Reports may be under way. */
  ghost predicate OneInterval(setting: Setting, s: State, actions: seq<Action>)
    requires setting.wallclock.Valid()
    decreases |actions|
  {
    actions == [] ||
    (var rest := actions[..|actions| - 1];
     OneInterval(setting, s, rest) && !ResetsCounts(Run(setting, s, rest), actions[|actions| - 1]))
  }

  /** The counter step, if any, that an action makes. */
  function CounterSteps(s: State, a: Action): seq<Race.Step> {
    if a.Print? then [Race.PrintStep]
    else if a.Advance? && a.id in s.calls && s.calls[a.id].raw.Parsed() then
      match s.calls[a.id].pc
      case Decorated => [Race.AddExported]
      case Counted => [Race.LoadTopic(a.id, Topic(s.calls[a.id].raw))]
      case Loaded => [Race.StoreTopic(a.id)]
      case _ => []
    else []
  }

  /** Up to the age check a step changes one call, which is neither counted nor loaded by it. */
  lemma EarlyFrame(setting: Setting, s: State, id: nat)
    requires setting.wallclock.Valid() && id in s.calls && Rank(s.calls[id].pc) < 4
    ensures var c, s' := s.calls[id], AdvanceStep(setting, s, id);
            && s'.counters == s.counters && id in s'.calls && s'.calls == s.calls[id := s'.calls[id]]
            && var c' := s'.calls[id];
               c'.raw == c.raw && (Rank(c'.pc) <= 4 || (c'.pc == Finished && c'.outcome != Some(Exported)))
  {
    var c := s.calls[id];
    match c.pc
    case Entered =>
    case Metered => assert PlaceStep(s, id, c).calls == s.calls[id := PlacedCall(s, c)];
    case Placed => assert GateStep(setting, s, id, c).calls == s.calls[id := GatedCall(setting, s, c)];
    case Gated =>
  }

  lemma LateFrame(setting: Setting, s: State, id: nat)
    requires setting.wallclock.Valid() && id in s.calls && Rank(s.calls[id].pc) >= 4
    ensures var c, s' := s.calls[id], AdvanceStep(setting, s, id);
            && id in s'.calls
            && s'.calls == s.calls[id := if c.raw.Parsed() then ExportingCall(|s.sinks|, c) else c]
            && s'.counters == if c.raw.Parsed() then ExportingCounters(s.counters, id, c) else s.counters
  {
  }

  /** The counters take the step that goes with the action. */
  lemma CountersFollow(setting: Setting, s: State, a: Action)
    requires setting.wallclock.Valid() && PendingMatches(s.counters, s.calls)
    ensures Apply(setting, s, a).counters == Race.Run(s.counters, CounterSteps(s, a))
  {
    Race.RunOneStep(s.counters, if CounterSteps(s, a) == [] then Race.PrintStep else CounterSteps(s, a)[0]);
    if a.Advance? && a.id in s.calls {
      if Rank(s.calls[a.id].pc) < 4 { EarlyFrame(setting, s, a.id); } else { LateFrame(setting, s, a.id); }
    }
  }

  lemma LatePending(counters: Race.Counters, calls: Calls, sinks: nat, id: nat, c: Call)
    requires PendingMatches(counters, calls) && id in calls && c == calls[id] && Rank(c.pc) >= 4 && c.raw.Parsed()
    ensures PendingMatches(ExportingCounters(counters, id, c), calls[id := ExportingCall(sinks, c)])
  {
  }

  lemma EarlyPending(counters: Race.Counters, calls: Calls, id: nat, c: Call)
    requires PendingMatches(counters, calls) && c.pc != Loaded && (id in calls ==> calls[id].pc != Loaded)
    ensures PendingMatches(counters, calls[id := c])
  {
  }

  lemma SamePending(counters: Race.Counters, counters': Race.Counters, calls: Calls)
    requires PendingMatches(counters, calls) && counters'.pending == counters.pending
    ensures PendingMatches(counters', calls)
  {
  }

  lemma AdvancePending(setting: Setting, s: State, id: nat)
    requires setting.wallclock.Valid() && PendingMatches(s.counters, s.calls)
    ensures PendingMatches(AdvanceStep(setting, s, id).counters, AdvanceStep(setting, s, id).calls)
  {
    if id !in s.calls { return; }
    hide AdvanceStep, PendingMatches;
    if Rank(s.calls[id].pc) < 4 {
      EarlyFrame(setting, s, id);
      EarlyPending(s.counters, s.calls, id, AdvanceStep(setting, s, id).calls[id]);
    } else {
      LateFrame(setting, s, id);
      if s.calls[id].raw.Parsed() { LatePending(s.counters, s.calls, |s.sinks|, id, s.calls[id]); }
      assert s.calls[id := s.calls[id]] == s.calls;
    }
  }

  lemma PendingFollows(setting: Setting, s: State, a: Action)
    requires setting.wallclock.Valid() && PendingMatches(s.counters, s.calls)
    ensures PendingMatches(Apply(setting, s, a).counters, Apply(setting, s, a).calls)
  {
    hide AdvanceStep, PendingMatches;
    if a.Advance? {
      AdvancePending(setting, s, a.id);
    } else if a.Enter? && a.id !in s.calls {
      EarlyPending(s.counters, s.calls, a.id, NewCall(a.raw));
    } else {
      SamePending(s.counters, Apply(setting, s, a).counters, s.calls);
    }
  }

  /** Every run of the pipeline drives the counters through a run of the race, with the same resets. */
  lemma {:induction false} PipelineIsARace(setting: Setting, s: State, actions: seq<Action>)
    returns (steps: seq<Race.Step>)
    requires setting.wallclock.Valid() && PendingMatches(s.counters, s.calls)
    ensures var s' := Run(setting, s, actions);
            s'.counters == Race.Run(s.counters, steps) && PendingMatches(s'.counters, s'.calls)
    ensures OneInterval(setting, s, actions) ==> Race.OneInterval(s.counters, steps)
  {
    hide Machine.Apply, PendingMatches;
    if actions == [] { return []; }
    var rest, a := actions[..|actions| - 1], actions[|actions| - 1];
    var before := PipelineIsARace(setting, s, rest);
    var mid := Run(setting, s, rest);
    CountersFollow(setting, mid, a);
    PendingFollows(setting, mid, a);
    Race.RunConcat(s.counters, before, CounterSteps(mid, a));
    steps := before + CounterSteps(mid, a);
    if CounterSteps(mid, a) == [] { assert steps == before; } else { assert steps[..|before|] == before; }
  }

  lemma ReachablePending(setting: Setting, s: State)
    requires setting.wallclock.Valid() && Reachable(setting, s)
    ensures PendingMatches(s.counters, s.calls)
  {
    var sinks: nat, start: Time, actions :| s == Run(setting, Init(sinks, start), actions);
    var steps := PipelineIsARace(setting, Init(sinks, start), actions);
  }

  lemma SetGrows(a: set<nat>, b: set<nat>, id: nat)
    requires b == a + {id} && id !in a
    ensures |b| == |a| + 1
  {
  }

  /** The action that counts a call, and the action that stores its unit. */
  predicate Counts(s: State, a: Action) { CounterSteps(s, a) == [Race.AddExported] }

  lemma CountedUpdate(calls: Calls, id: nat, c: Call)
    requires id in calls && (WasCounted(calls[id]) ==> WasCounted(c))
    ensures |CountedCalls(calls[id := c])|
            == |CountedCalls(calls)| + if WasCounted(c) && !WasCounted(calls[id]) then 1 else 0
  {
    if WasCounted(c) && !WasCounted(calls[id]) {
      SetGrows(CountedCalls(calls), CountedCalls(calls[id := c]), id);
    } else {
      assert CountedCalls(calls[id := c]) == CountedCalls(calls);
    }
  }

  lemma StoredUpdate(calls: Calls, id: nat, c: Call, topic: string)
    requires id in calls && (WasStored(calls[id], topic) ==> WasStored(c, topic))
    ensures |StoredCalls(calls[id := c], topic)|
            == |StoredCalls(calls, topic)| + if WasStored(c, topic) && !WasStored(calls[id], topic) then 1 else 0
  {
    if WasStored(c, topic) && !WasStored(calls[id], topic) {
      SetGrows(StoredCalls(calls, topic), StoredCalls(calls[id := c], topic), id);
    } else {
      assert StoredCalls(calls[id := c], topic) == StoredCalls(calls, topic);
    }
  }

  lemma LateCounted(calls: Calls, sinks: nat, id: nat, c: Call)
    requires id in calls && c == calls[id] && Rank(c.pc) >= 4 && c.raw.Parsed()
    requires Rank(c.pc) < 9 ==> c.outcome == Some(Exported)
    ensures |CountedCalls(calls[id := ExportingCall(sinks, c)])|
            == |CountedCalls(calls)| + if c.pc == Decorated then 1 else 0
  {
    CountedUpdate(calls, id, ExportingCall(sinks, c));
  }

  lemma LateStored(counters: Race.Counters, calls: Calls, sinks: nat, id: nat, c: Call, topic: string)
    requires PendingMatches(counters, calls)
    requires id in calls && c == calls[id] && Rank(c.pc) >= 4 && c.raw.Parsed()
    requires Rank(c.pc) < 9 ==> c.outcome == Some(Exported)
    ensures |StoredCalls(calls[id := ExportingCall(sinks, c)], topic)| - |StoredCalls(calls, topic)|
            == Race.Done(ExportingCounters(counters, id, c), topic) - Race.Done(counters, topic)
  {
    hide Topic, EventName;
    NamesByType(c.raw);
    StoredUpdate(calls, id, ExportingCall(sinks, c), topic);
    if c.pc == Loaded {
      assert Race.Done(Race.StoreTopicStep(counters, id), topic)
             == Race.Done(counters, topic) + if Topic(c.raw) == topic then 1 else 0;
    }
  }

  /** An acting call between its age check and its end is one that is being exported. */
  ghost predicate ActsToExport(s: State, a: Action) {
    a.Advance? && a.id in s.calls && 4 <= Rank(s.calls[a.id].pc) < 9 ==> s.calls[a.id].outcome == Some(Exported)
  }

  lemma InvActs(setting: Setting, s: State, a: Action)
    requires setting.wallclock.Valid() && Inv(setting, s)
    ensures ActsToExport(s, a)
  {
  }

  lemma CountedFollow(setting: Setting, s: State, a: Action)
    requires setting.wallclock.Valid() && ActsToExport(s, a)
    ensures |CountedCalls(Apply(setting, s, a).calls)| == |CountedCalls(s.calls)| + if Counts(s, a) then 1 else 0
  {
    if a.Advance? && a.id in s.calls {
      var c := s.calls[a.id];
      assert Apply(setting, s, a) == AdvanceStep(setting, s, a.id);
      if Rank(c.pc) < 4 {
        EarlyFrame(setting, s, a.id);
        CountedUpdate(s.calls, a.id, AdvanceStep(setting, s, a.id).calls[a.id]);
      } else {
        LateFrame(setting, s, a.id);
        if c.raw.Parsed() { LateCounted(s.calls, |s.sinks|, a.id, c); } else { assert s.calls[a.id := c] == s.calls; }
      }
    } else if a.Enter? && a.id !in s.calls {
      assert CountedCalls(s.calls[a.id := NewCall(a.raw)]) == CountedCalls(s.calls);
    } else {
      assert Apply(setting, s, a).calls == s.calls;
    }
  }

  lemma StoredFollow(setting: Setting, s: State, a: Action, topic: string)
    requires setting.wallclock.Valid() && ActsToExport(s, a)
    requires PendingMatches(s.counters, s.calls) && !ResetsCounts(s, a)
    ensures |StoredCalls(Apply(setting, s, a).calls, topic)| - |StoredCalls(s.calls, topic)|
            == Race.Done(Apply(setting, s, a).counters, topic) - Race.Done(s.counters, topic)
  {
    if a.Advance? && a.id in s.calls {
      var c := s.calls[a.id];
      assert Apply(setting, s, a) == AdvanceStep(setting, s, a.id);
      if Rank(c.pc) < 4 {
        EarlyFrame(setting, s, a.id);
        StoredUpdate(s.calls, a.id, AdvanceStep(setting, s, a.id).calls[a.id], topic);
      } else {
        LateFrame(setting, s, a.id);
        if c.raw.Parsed() {
          LateStored(s.counters, s.calls, |s.sinks|, a.id, c, topic);
        } else {
          assert s.calls[a.id := c] == s.calls;
        }
      }
    } else if a.Enter? && a.id !in s.calls {
      assert StoredCalls(s.calls[a.id := NewCall(a.raw)], topic) == StoredCalls(s.calls, topic);
    } else {
      assert Apply(setting, s, a).calls == s.calls;
    }
  }

  /** Only counting adds to the counters' history of counted events. */
  lemma AddedFollow(setting: Setting, s: State, a: Action)
    requires setting.wallclock.Valid()
    ensures Apply(setting, s, a).counters.added == s.counters.added + if Counts(s, a) then 1 else 0
  {
    if a.Advance? && a.id in s.calls {
      if Rank(s.calls[a.id].pc) < 4 { EarlyFrame(setting, s, a.id); } else { LateFrame(setting, s, a.id); }
    }
  }

  lemma {:induction false} AddedIsCounted(setting: Setting, sinks: nat, start: Time, actions: seq<Action>)
    requires setting.wallclock.Valid()
    ensures var s := Run(setting, Init(sinks, start), actions); s.counters.added == |CountedCalls(s.calls)|
  {
    if actions != [] {
      var rest, a := actions[..|actions| - 1], actions[|actions| - 1];
      var s := Run(setting, Init(sinks, start), rest);
      AddedIsCounted(setting, sinks, start, rest);
      InitInv(setting, sinks, start);
      RunInv(setting, Init(sinks, start), rest);
      InvActs(setting, s, a);
      CountedFollow(setting, s, a);
      AddedFollow(setting, s, a);
    }
  }

  /** While nothing resets, a topic's completed adds grow by the calls that store one. */
  lemma {:induction false} DoneIsStored(setting: Setting, s: State, actions: seq<Action>, topic: string)
    requires setting.wallclock.Valid() && Inv(setting, s) && PendingMatches(s.counters, s.calls)
    requires OneInterval(setting, s, actions)
    ensures var s' := Run(setting, s, actions);
            Race.Done(s'.counters, topic) - Race.Done(s.counters, topic)
            == |StoredCalls(s'.calls, topic)| - |StoredCalls(s.calls, topic)|
  {
    hide Machine.Apply, Inv, PendingMatches, ActsToExport;
    if actions != [] {
      var rest, a := actions[..|actions| - 1], actions[|actions| - 1];
      var mid := Run(setting, s, rest);
      DoneIsStored(setting, s, rest, topic);
      RunInv(setting, s, rest);
      var steps := PipelineIsARace(setting, s, rest);
      InvActs(setting, mid, a);
      StoredFollow(setting, mid, a, topic);
    }
  }

  /** The counters as a run of the pipeline finds them at its start, and after every reset. */
  lemma IntervalsBeginBlank(setting: Setting, sinks: nat, start: Time, s: State, a: Action)
    requires setting.wallclock.Valid() && ResetsCounts(s, a)
    ensures Race.Blank(Init(sinks, start).counters)
    ensures Race.Blank(Apply(setting, s, a).counters) && Apply(setting, s, a).counters.pending == s.counters.pending
  {
    Race.ResetBlanks(s.counters);
  }

  /** The exports of the topic stored between the two states. */
  function StoredSince(s: State, s': State, topic: string): int {
    |StoredCalls(s'.calls, topic)| - |StoredCalls(s.calls, topic)|
  }

  /** From any reset to any point before the next one, whatever the interleaving: with n of a topic's
      exports stored since the reset, its count is between 2 and n plus the most that an add of it which was
      half done at the reset had loaded (or plus 1 without one), below wrap-around. */
  lemma CountsBounded(setting: Setting, s: State, actions: seq<Action>, topic: string, carried: nat)
    requires setting.wallclock.Valid() && Reachable(setting, s) && Race.Blank(s.counters)
    requires OneInterval(setting, s, actions) && carried > 0 && Race.LoadedAtMost(s.counters, topic, carried)
    ensures var s' := Run(setting, s, actions);
            var n := StoredSince(s, s', topic);
            n > 0 && n + carried < TWO_TO_THE_64 ==>
              topic in s'.counters.table && 2 <= s'.counters.table[topic] <= n + carried
  {
    hide Machine.Run, StoredCalls;
    ReachableInv(setting, s);
    ReachablePending(setting, s);
    var steps := PipelineIsARace(setting, s, actions);
    Race.RunBounded(s.counters, steps, topic, carried);
    DoneIsStored(setting, s, actions, topic);
  }

  /** With n of the topic's exports stored, its count is between 2 and n + 1. */
  ghost predicate CountInBounds(s: State, s': State, topic: string) {
    var n := StoredSince(s, s', topic);
    0 < n < TWO_TO_THE_64 - 1 ==> topic in s'.counters.table && 2 <= s'.counters.table[topic] <= n + 1
  }

  ghost predicate IntervalInBounds(setting: Setting, s: State, topic: string)
    requires setting.wallclock.Valid()
  {
    forall actions :: OneInterval(setting, s, actions) ==> CountInBounds(s, Run(setting, s, actions), topic)
  }

  /** A topic's counts stay between 2 and n + 1 from a reset to the next one if and only if, at the
      reset, no call that is between the two halves of its add has loaded any other count than 1. */
  lemma IntervalBoundedIff(setting: Setting, s: State, topic: string)
    requires setting.wallclock.Valid() && Reachable(setting, s) && Race.Blank(s.counters)
    ensures IntervalInBounds(setting, s, topic) <==> Race.LoadedAtMost(s.counters, topic, 1)
  {
    hide Machine.Run, Inv, PendingMatches, OneInterval, StoredCalls;
    if Race.LoadedAtMost(s.counters, topic, 1) {
      forall actions | OneInterval(setting, s, actions) ensures CountInBounds(s, Run(setting, s, actions), topic) {
        CountsBounded(setting, s, actions, topic, 1);
      }
    } else {
      ReachableInv(setting, s);
      ReachablePending(setting, s);
      var id :| id in s.counters.pending && s.counters.pending[id].topic == topic && s.counters.pending[id].loaded != 1;
      StraddlerStores(setting, s, id);
    }
  }

  lemma StraddlerStores(setting: Setting, s: State, id: nat)
    requires setting.wallclock.Valid() && Inv(setting, s) && PendingMatches(s.counters, s.calls)
    requires Race.Blank(s.counters) && id in s.counters.pending && s.counters.pending[id].loaded != 1
    ensures OneInterval(setting, s, [Advance(id)])
    ensures !CountInBounds(s, Run(setting, s, [Advance(id)]), s.counters.pending[id].topic)
  {
    var a, topic := Advance(id), s.counters.pending[id].topic;
    StraddlerStep(setting, s, id);
    hide Machine.Run, Machine.Apply, Inv, PendingMatches, OneInterval, StoredCalls, CounterSteps;
    CountersFollow(setting, s, a);
    Race.StraddlerCarries(s.counters, id);
    DoneIsStored(setting, s, [a], topic);
  }

  lemma StraddlerStep(setting: Setting, s: State, id: nat)
    requires setting.wallclock.Valid() && PendingMatches(s.counters, s.calls) && id in s.counters.pending
    ensures CounterSteps(s, Advance(id)) == [Race.StoreTopic(id)]
    ensures OneInterval(setting, s, [Advance(id)]) && Run(setting, s, [Advance(id)]) == Apply(setting, s, Advance(id))
  {
    assert [Advance(id)][..0] == [];
  }

  /** The reports of a run, added up, never show more exports than there were calls counted; and what
      they and the live counter miss landed between a report's read and its reset, up to wrap-around. */
  lemma ReportsConserve(setting: Setting, sinks: nat, start: Time, actions: seq<Action>)
    requires setting.wallclock.Valid()
    ensures var s := Run(setting, Init(sinks, start), actions);
            && Race.SumReported(s.counters.reports) <= |CountedCalls(s.calls)|
            && (!s.counters.printer.Read? ==>
                  Wrap(Race.SumReported(s.counters.reports) + s.counters.lost + s.counters.exported)
                  == Wrap(|CountedCalls(s.calls)|))
  {
    hide Machine.Run, Race.Run, Race.SumReported, Wrap, CountedCalls;
    var steps := PipelineIsARace(setting, Init(sinks, start), actions);
    Race.ReportsNeverOvercount(steps);
    AddedIsCounted(setting, sinks, start, actions);
  }
}

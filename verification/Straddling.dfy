/** A report in the middle of an add: the count it takes away comes back. */
module Straddling {
  import opened Base
  import opened Chain
  import opened Events
  import opened Keys
  import opened Machine
  import opened Invariants
  import opened Consequences
  import opened Counting
  import opened Summary
  import opened Sequential
  import Race = SummaryRace
  import Serial

  function Prints(n: nat): seq<Action> { seq(n, _ => Print) }

  function PrintSteps(n: nat): seq<Race.Step> { seq(n, _ => Race.PrintStep) }

  lemma {:induction false} PrintsRun(setting: Setting, s: State, n: nat)
    requires setting.wallclock.Valid()
    ensures Run(setting, s, Prints(n)) == s.(counters := Race.Run(s.counters, PrintSteps(n)))
  {
    if n > 0 {
      PrintsRun(setting, s, n - 1);
      assert Prints(n)[..n - 1] == Prints(n - 1) && PrintSteps(n)[..n - 1] == PrintSteps(n - 1);
    }
  }

  /** A completion of some column of an unknown block, without a slot. */
  function Column(column: u64): Raw { DataColumnCompleted(0, 0, "", column, "EL", "") }

  const COMPLETED := "LIBP2P_TRACE_DATA_COLUMN_COMPLETED"

  function Now(t: Time): Readings { Readings(t, t, t) }

  /** Completions of two columns are both exported, and the summary is told of the first. */
  lemma ColumnsExported(setting: Setting, t: Time)
    requires setting.wallclock.Valid()
    ensures OutcomeOf(setting, EMPTY, Column(0), Now(t)) == Exported
    ensures var w := Handle(setting, EMPTY, 0, Column(0), Now(t));
            && OutcomeOf(setting, w, Column(1), Now(t)) == Exported
            && TableOf(w.adds) == map[COMPLETED := 2]
  {
    CompletionKeyInjective("", 0, "", 1);
    var w := Handle(setting, EMPTY, 0, Column(0), Now(t));
    assert !SeenIn(EMPTY.dup, Column(0), CompletionKey("", 0), t);
    assert !SeenIn(w.dup, Column(1), CompletionKey("", 1), t);
    assert w.adds == [Add(COMPLETED, 1)];
    assert [Add(COMPLETED, 1)][..0] == [];
    assert TableOf(w.adds) == AddTo(map[], COMPLETED, 1);
  }

  /** One completion is exported, a second one loads the topic's count, and a report runs to its end. */
  lemma Straddle(setting: Setting, start: Time) returns (actions: seq<Action>)
    requires setting.wallclock.Valid()
    ensures var s := Run(setting, Init(0, start), actions);
            Race.Blank(s.counters) && s.counters.pending == map[1 := Race.Pending(COMPLETED, 2)]
  {
    hide Run, Inv, Serial.Serve, Serial.Approach, Serial.Steps, Handle, OutcomeOf, TableOf, Race.Run;
    var init, first := Init(0, start), Serial.Serve(0, 0, Column(0), Now(start));
    var second := Serial.Approach(1, Column(1), Now(start), 3);
    var w := Handle(setting, EMPTY, 0, Column(0), Now(start));
    ColumnsExported(setting, start);
    Serial.InitStands(setting, 0, start);
    Serial.CallIsHandled(setting, init, EMPTY, 0, Column(0), Now(start));
    var s1 := Run(setting, init, first);
    var t := Serial.ApproachSteps(setting, s1, w, 1, Column(1), Now(start), 3);
    Serial.LoadSteps(setting, t, 1, 3);
    var s2 := Run(setting, s1, second);
    assert s2.counters.pending == map[1 := Race.Pending(COMPLETED, 2)] && s2.counters.printer.Idle?;
    PrintsRun(setting, s2, 4);
    assert PrintSteps(4) == [Race.PrintStep, Race.PrintStep, Race.PrintStep, Race.PrintStep];
    Race.ReportRun(s2.counters);
    actions := first + second + Prints(4);
    RunConcat(setting, init, first, second);
    RunConcat(setting, init, first + second, Prints(4));
  }

  /** So the bound does fail: whatever the setting, there is a reset after which some run shows a topic's
      count outside 2 to n + 1. */
  lemma BoundFails(setting: Setting)
    requires setting.wallclock.Valid()
    ensures exists s :: Reachable(setting, s) && Race.Blank(s.counters) && !IntervalInBounds(setting, s, COMPLETED)
  {
    var actions := Straddle(setting, 0);
    var s := Run(setting, Init(0, 0), actions);
    assert Reachable(setting, s);
    IntervalBoundedIff(setting, s, COMPLETED);
    assert 1 in s.counters.pending;
  }
}

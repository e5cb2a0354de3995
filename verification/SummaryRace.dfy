/** The summary counters under concurrent handlers and one printing goroutine: AddEventStreamEvents
    is two atomic steps, and a report is read and reset in separate steps. */
module SummaryRace {
  import opened Base
  import opened Summary

  /** The printing goroutine: idle; topics copied; exported count read; exported count zeroed. */
  datatype Printer = Idle | Copied(events: Table) | Read(events: Table, exported: u64) | Zeroed

  datatype Pending = Pending(topic: string, loaded: u64)

  /** `added`, `printed`, `lost` and `done` are history: events counted as exported, the sum of the
      reported export counts, adds that landed between a report's read and its reset, and completed
      topic adds since the table was last replaced. */
  datatype Counters = Counters(table: Table, exported: u64, pending: map<nat, Pending>, printer: Printer,
                               reports: seq<Report>,
                               added: nat, printed: nat, lost: nat, done: map<string, nat>)

  const FRESH: Counters := Counters(map[], 0, map[], Idle, [], 0, 0, 0, map[])

  datatype Step =
    | AddExported
    | LoadTopic(id: nat, topic: string)
    | StoreTopic(id: nat)
    | PrintStep

  function Done(s: Counters, topic: string): nat { if topic in s.done then s.done[topic] else 0 }

  function AddExportedStep(s: Counters): Counters {
    s.(exported := Add64(s.exported, 1), added := s.added + 1,
       lost := if s.printer.Read? then s.lost + 1 else s.lost)
  }

  /** LoadOrStore(topic, 1). */
  function LoadTopicStep(s: Counters, id: nat, topic: string): Counters {
    var table := if topic in s.table then s.table else s.table[topic := 1];
    s.(table := table, pending := s.pending[id := Pending(topic, table[topic])])
  }

  /** Store(topic, loaded + 1). */
  function StoreTopicStep(s: Counters, id: nat): Counters {
    if id !in s.pending then s
    else
      var p := s.pending[id];
      s.(table := s.table[p.topic := Add64(p.loaded, 1)], pending := s.pending - {id},
         done := s.done[p.topic := Done(s, p.topic) + 1])
  }

  ghost function PrinterStep(s: Counters): Counters {
    match s.printer
    case Idle => s.(printer := Copied(s.table))
    case Copied(events) => s.(printer := Read(events, s.exported), printed := s.printed + s.exported)
    case Read(events, exported) =>
      s.(printer := Zeroed, exported := 0, reports := s.reports + [Report(Wrap(SumOf(events)), exported, 0, events)])
    case Zeroed => s.(printer := Idle, table := map[], done := map[])
  }

  ghost function Apply(s: Counters, step: Step): Counters {
    match step
    case AddExported => AddExportedStep(s)
    case LoadTopic(id, topic) => if id in s.pending then s else LoadTopicStep(s, id, topic)
    case StoreTopic(id) => StoreTopicStep(s, id)
    case PrintStep => PrinterStep(s)
  }

  ghost function Run(s: Counters, steps: seq<Step>): Counters
    decreases |steps|
  {
    if steps == [] then s else Apply(Run(s, steps[..|steps| - 1]), steps[|steps| - 1])
  }

  lemma {:induction false} RunConcat(s: Counters, a: seq<Step>, b: seq<Step>)
    ensures Run(s, a + b) == Run(Run(s, a), b)
  {
    if b == [] {
      assert a + b == a;
    } else {
      assert (a + b)[..|a + b| - 1] == a + b[..|b| - 1];
      RunConcat(s, a, b[..|b| - 1]);
    }
  }

  lemma RunOneStep(s: Counters, step: Step)
    ensures Run(s, []) == s
    ensures Run(s, [step]) == Apply(s, step)
  {
    assert [step][..0] == [];
  }

  /** The two halves with nothing between them are the sequential add. */
  lemma HalvesMakeAnAdd(s: Counters, id: nat, topic: string)
    requires id !in s.pending
    ensures Run(s, [LoadTopic(id, topic), StoreTopic(id)])
            == s.(table := AddTo(s.table, topic, 1), done := s.done[topic := Done(s, topic) + 1])
  {
    hide Run;
    var mid := LoadTopicStep(s, id, topic);
    RunOneStep(s, LoadTopic(id, topic));
    RunOneStep(mid, StoreTopic(id));
    RunConcat(s, [LoadTopic(id, topic)], [StoreTopic(id)]);
    assert [LoadTopic(id, topic)] + [StoreTopic(id)] == [LoadTopic(id, topic), StoreTopic(id)];
    assert mid.pending - {id} == s.pending;
  }

  // ----- bounds on a topic's count between two resets -----

  /** The step with which a report replaces the table. */
  predicate Resets(s: Counters, step: Step) { step.PrintStep? && s.printer.Zeroed? }

  /** No step of the run replaces the table. Reports may be under way. */
  ghost predicate OneInterval(s: Counters, steps: seq<Step>)
    decreases |steps|
  {
    steps == [] ||
    (OneInterval(s, steps[..|steps| - 1]) && !Resets(Run(s, steps[..|steps| - 1]), steps[|steps| - 1]))
  }

  /** As the counters start, and as every reset leaves them: no topic present, no add completed. */
  predicate Blank(s: Counters) { s.table == map[] && s.done == map[] }

  /** A reset takes away every count, but leaves the adds that are half done with the counts they loaded. */
  lemma ResetBlanks(s: Counters)
    requires s.printer.Zeroed?
    ensures Blank(PrinterStep(s)) && PrinterStep(s).pending == s.pending
  {
  }

  /** Each half-done add of `topic` has loaded at least 1 and at most `carried`. */
  ghost predicate LoadedAtMost(s: Counters, topic: string, carried: nat) {
    forall id :: id in s.pending && s.pending[id].topic == topic ==> 1 <= s.pending[id].loaded <= carried
  }

  /** With n adds of `topic` completed, counts reach at most n + carried, and half-done adds have loaded no
      more; and below wrap-around every count is at least one, at least two once an add completed. */
  ghost predicate Bounded(s: Counters, topic: string, carried: nat) {
    var n := Done(s, topic);
    && (n > 0 ==> topic in s.table)
    && (topic in s.table ==> s.table[topic] <= n + carried)
    && (forall i :: i in s.pending && s.pending[i].topic == topic ==> s.pending[i].loaded <= n + carried)
    && (n + carried < TWO_TO_THE_64 ==>
          && (topic in s.table ==> s.table[topic] >= if n > 0 then 2 else 1)
          && (forall i :: i in s.pending && s.pending[i].topic == topic ==> s.pending[i].loaded >= 1))
  }

  lemma StoreBounded(s: Counters, id: nat, topic: string, carried: nat)
    requires Bounded(s, topic, carried) && id in s.pending
    ensures Bounded(StoreTopicStep(s, id), topic, carried)
  {
    var s', p := StoreTopicStep(s, id), s.pending[id];
    assert Done(s', topic) == Done(s, topic) + if p.topic == topic then 1 else 0;
    var v := Add64(p.loaded, 1);
    assert v <= p.loaded + 1 && (p.loaded < TWO_TO_THE_64 - 1 ==> v == p.loaded + 1);
    assert forall i :: i in s'.pending ==> i in s.pending && s'.pending[i] == s.pending[i];
  }

  lemma StepBounded(s: Counters, step: Step, topic: string, carried: nat)
    requires Bounded(s, topic, carried) && carried > 0 && !Resets(s, step)
    ensures Bounded(Apply(s, step), topic, carried)
  {
    assert Done(if step.PrintStep? then Apply(s, step) else s, topic) == Done(s, topic);
    if step.StoreTopic? && step.id in s.pending { StoreBounded(s, step.id, topic, carried); }
  }

  /** Every interleaving without a reset keeps the bounds, from whatever state it starts in. */
  lemma {:induction false} RunBounded(s: Counters, steps: seq<Step>, topic: string, carried: nat)
    requires Bounded(s, topic, carried) && carried > 0 && OneInterval(s, steps)
    ensures Bounded(Run(s, steps), topic, carried)
  {
    if steps != [] {
      RunBounded(s, steps[..|steps| - 1], topic, carried);
      StepBounded(Run(s, steps[..|steps| - 1]), steps[|steps| - 1], topic, carried);
    }
  }

  /** With n of the topic's adds completed in the interval, its count is between 2 and n + 1. */
  predicate CountInBounds(s: Counters, topic: string) {
    var n := Done(s, topic);
    0 < n < TWO_TO_THE_64 - 1 ==> topic in s.table && 2 <= s.table[topic] <= n + 1
  }

  /** From a reset to the next one a topic's counts stay within those bounds, whatever the interleaving, if
      and only if no add of it that is half done at the reset has loaded any other count than 1. */
  lemma IntervalBoundedIff(s: Counters, topic: string)
    requires Blank(s)
    ensures (forall steps :: OneInterval(s, steps) ==> CountInBounds(Run(s, steps), topic))
            <==> LoadedAtMost(s, topic, 1)
  {
    if LoadedAtMost(s, topic, 1) {
      forall steps | OneInterval(s, steps) ensures CountInBounds(Run(s, steps), topic) {
        RunBounded(s, steps, topic, 1);
      }
    } else {
      var id :| id in s.pending && s.pending[id].topic == topic && !(1 <= s.pending[id].loaded <= 1);
      StraddlerCarries(s, id);
    }
  }

  /** An add that is half done at a reset brings the count it had loaded into the new interval. */
  lemma StraddlerCarries(s: Counters, id: nat)
    requires Blank(s) && id in s.pending
    ensures OneInterval(s, [StoreTopic(id)])
    ensures var s', p := Run(s, [StoreTopic(id)]), s.pending[id];
            && Done(s', p.topic) == 1 && p.topic in s'.table && s'.table[p.topic] == Add64(p.loaded, 1)
            && (p.loaded != 1 ==> !CountInBounds(s', p.topic))
  {
    RunOneStep(s, StoreTopic(id));
    QuietIsOneInterval(s, [StoreTopic(id)]);
  }

  predicate Quiet(steps: seq<Step>) { forall i :: 0 <= i < |steps| ==> !steps[i].PrintStep? }

  lemma {:induction false} QuietIsOneInterval(s: Counters, steps: seq<Step>)
    requires Quiet(steps)
    ensures OneInterval(s, steps) && Run(s, steps).printer == s.printer
  {
    if steps != [] { QuietIsOneInterval(s, steps[..|steps| - 1]); }
  }

  /** A whole report over an idle printer. */
  lemma ReportRun(s: Counters)
    requires s.printer.Idle?
    ensures var s' := Run(s, [PrintStep, PrintStep, PrintStep, PrintStep]); Blank(s') && s'.pending == s.pending
  {
    var p := [PrintStep];
    assert p + p + p + p == [PrintStep, PrintStep, PrintStep, PrintStep];
    RunConcat(s, p + p + p, p);
    RunConcat(s, p + p, p);
    RunConcat(s, p, p);
    RunOneStep(s, PrintStep);
    RunOneStep(Run(s, p), PrintStep);
    RunOneStep(Run(s, p + p), PrintStep);
    RunOneStep(Run(s, p + p + p), PrintStep);
  }

  /** There is no bound on what is carried: any count can be held by an add that is half done at a reset. */
  lemma StraddlingAdd(topic: string, loaded: u64) returns (steps: seq<Step>)
    requires loaded >= 2
    ensures var s := Run(FRESH, steps); Blank(s) && s.pending == map[0 := Pending(topic, loaded)]
  {
    hide Run;
    var adds := Loads(topic, 1) + Stores(1) + Adds(topic, loaded - 2);
    var s := OverlapThenAdd(topic, 1, loaded - 2);
    QuietIsOneInterval(FRESH, adds);
    RunOneStep(s, LoadTopic(0, topic));
    ReportRun(Run(s, [LoadTopic(0, topic)]));
    RunConcat(FRESH, adds, [LoadTopic(0, topic)]);
    steps := adds + [LoadTopic(0, topic)] + [PrintStep, PrintStep, PrintStep, PrintStep];
    RunConcat(FRESH, adds + [LoadTopic(0, topic)], [PrintStep, PrintStep, PrintStep, PrintStep]);
  }

  // ----- the outcomes of a race -----

  /** A count that some interleaving of `n` completed unit adds to `topic`, with no reset, can leave behind
      with no add half done. */
  ghost predicate Reachable(topic: string, n: nat, count: u64) {
    exists steps :: OneInterval(FRESH, steps) && Leaves(Run(FRESH, steps), topic, n, count)
  }

  ghost predicate Leaves(s: Counters, topic: string, n: nat, count: u64) {
    Done(s, topic) == n && s.pending == map[] && topic in s.table && s.table[topic] == count
  }

  /** Overlap the first n + 2 - count adds completely, then do the rest one after the other. */
  lemma RaceWitness(topic: string, n: nat, count: u64)
    requires 2 <= count <= n + 1 && n < TWO_TO_THE_64 - 1
    ensures Reachable(topic, n, count)
  {
    var later: nat := count - 2;
    var together := n - later;
    var steps := Loads(topic, together) + Stores(together) + Adds(topic, later);
    var s := OverlapThenAdd(topic, together, later);
    assert Leaves(s, topic, n, count);
    QuietIsOneInterval(FRESH, steps);
    assert Run(FRESH, steps) == s;
  }

  lemma OverlapThenAdd(topic: string, together: nat, later: nat) returns (s: Counters)
    requires together > 0 && later + 2 < TWO_TO_THE_64
    ensures s == Run(FRESH, Loads(topic, together) + Stores(together) + Adds(topic, later))
    ensures s.pending == map[] && Done(s, topic) == together + later && topic in s.table && s.table[topic] == 2 + later
  {
    var loads, stores, rest := Loads(topic, together), Stores(together), Adds(topic, later);
    LoadsRun(topic, together);
    var s1 := Run(FRESH, loads);
    StoresRun(s1, topic, together, together);
    var s2 := Run(s1, stores);
    assert s2.pending == map[];
    AddsRun(s2, topic, later);
    s := Run(s2, rest);
    RunConcat(FRESH, loads, stores);
    RunConcat(FRESH, loads + stores, rest);
  }

  /** Exactly the counts from 2 to n + 1 can result from n racing adds. */
  lemma RaceOutcomes(topic: string, n: nat, count: u64)
    requires 1 <= n < TWO_TO_THE_64 - 1
    ensures Reachable(topic, n, count) <==> 2 <= count <= n + 1
  {
    if Reachable(topic, n, count) {
      var steps :| OneInterval(FRESH, steps) && Leaves(Run(FRESH, steps), topic, n, count);
      RunBounded(FRESH, steps, topic, 1);
    }
    if 2 <= count <= n + 1 {
      RaceWitness(topic, n, count);
    }
  }

  function Loads(topic: string, k: nat): (steps: seq<Step>)
    ensures Quiet(steps)
  {
    if k == 0 then [] else Loads(topic, k - 1) + [LoadTopic(k - 1, topic)]
  }

  function Stores(k: nat): (steps: seq<Step>)
    ensures Quiet(steps)
  {
    if k == 0 then [] else Stores(k - 1) + [StoreTopic(k - 1)]
  }

  function Adds(topic: string, k: nat): (steps: seq<Step>)
    ensures Quiet(steps)
  {
    if k == 0 then [] else Adds(topic, k - 1) + [LoadTopic(0, topic), StoreTopic(0)]
  }

  /** Exactly the adds lo..n of `topic` are half done, each having loaded 1. */
  ghost predicate Overlapping(s: Counters, topic: string, lo: nat, n: nat) {
    && (forall i: nat :: i in s.pending <==> lo <= i < n)
    && (forall i :: i in s.pending ==> s.pending[i] == Pending(topic, 1))
  }

  lemma {:induction false} LoadsRun(topic: string, k: nat)
    ensures var s := Run(FRESH, Loads(topic, k));
            && s.done == map[] && Overlapping(s, topic, 0, k)
            && s.table == if k > 0 then map[topic := 1] else map[]
  {
    if k > 0 {
      LoadsRun(topic, k - 1);
      assert Loads(topic, k)[..|Loads(topic, k)| - 1] == Loads(topic, k - 1);
    }
  }

  lemma {:induction false} StoresRun(s: Counters, topic: string, n: nat, k: nat)
    requires k <= n && s.done == map[] && Overlapping(s, topic, 0, n)
    ensures var s' := Run(s, Stores(k));
            && Done(s', topic) == k && Overlapping(s', topic, k, n)
            && (k > 0 ==> topic in s'.table && s'.table[topic] == 2)
  {
    if k > 0 {
      StoresRun(s, topic, n, k - 1);
      assert Stores(k)[..|Stores(k)| - 1] == Stores(k - 1);
    }
  }

  lemma {:induction false} AddsRun(s: Counters, topic: string, k: nat)
    requires s.pending == map[] && topic in s.table && s.table[topic] + k < TWO_TO_THE_64
    ensures var s' := Run(s, Adds(topic, k));
            && s'.pending == map[] && topic in s'.table && s'.table[topic] == s.table[topic] + k
            && Done(s', topic) == Done(s, topic) + k
  {
    if k > 0 {
      AddsRun(s, topic, k - 1);
      RunConcat(s, Adds(topic, k - 1), [LoadTopic(0, topic), StoreTopic(0)]);
      HalvesMakeAnAdd(Run(s, Adds(topic, k - 1)), 0, topic);
    }
  }

  // ----- conservation of the exported count across reports -----

  function SumReported(reports: seq<Report>): nat {
    if reports == [] then 0 else SumReported(reports[..|reports| - 1]) + reports[|reports| - 1].eventsExported
  }

  /** Events counted but neither reported nor known lost: the counter, unless its value was just read. */
  function Outstanding(s: Counters): nat { if s.printer.Read? then 0 else s.exported }

  ghost predicate Conserved(s: Counters) {
    && Wrap(s.printed + s.lost + Outstanding(s)) == Wrap(s.added)
    && s.printed + s.lost + Outstanding(s) <= s.added
    && s.printed == SumReported(s.reports) + if s.printer.Read? then s.printer.exported else 0
  }

  lemma AddConserves(s: Counters)
    requires Conserved(s)
    ensures Conserved(AddExportedStep(s))
  {
    var s' := AddExportedStep(s);
    var base := s.printed + s.lost;
    WrapSame(base + Outstanding(s), s.added, 1);
    if s.printer.Read? {
      assert s'.printed + s'.lost + Outstanding(s') == base + Outstanding(s) + 1;
    } else {
      WrapAdd(s.exported + 1, base);
      assert s'.exported <= s.exported + 1;
    }
  }

  lemma PrintConserves(s: Counters)
    requires Conserved(s)
    ensures Conserved(PrinterStep(s))
  {
  }

  lemma StepConserves(s: Counters, step: Step)
    requires Conserved(s)
    ensures Conserved(Apply(s, step))
  {
    match step
    case AddExported => AddConserves(s);
    case PrintStep => PrintConserves(s);
    case LoadTopic(_, _) =>
    case StoreTopic(_) =>
  }

  /** In every interleaving: reports never over-count, and what they miss is what landed between a
      report's read and its reset, up to wrap-around of the counter. */
  lemma {:induction false} ReportsNeverOvercount(steps: seq<Step>)
    ensures Conserved(Run(FRESH, steps))
    ensures SumReported(Run(FRESH, steps).reports) <= Run(FRESH, steps).added
  {
    if steps != [] {
      ReportsNeverOvercount(steps[..|steps| - 1]);
      StepConserves(Run(FRESH, steps[..|steps| - 1]), steps[|steps| - 1]);
    }
  }

  // ----- what a report shows -----

  /** The table as it was at some point of the run. */
  ghost predicate WasTable(steps: seq<Step>, table: Table) {
    exists k :: 0 <= k <= |steps| && Run(FRESH, steps[..k]).table == table
  }

  lemma WasTableStill(steps: seq<Step>, step: Step, table: Table)
    requires WasTable(steps, table)
    ensures WasTable(steps + [step], table)
  {
    var k :| 0 <= k <= |steps| && Run(FRESH, steps[..k]).table == table;
    assert (steps + [step])[..k] == steps[..k];
  }

  /** Every report shows the topic counts as they stood together at one point of the run, and their sum; so
      does the one being made. */
  lemma {:induction false} ReportsShowTables(steps: seq<Step>)
    ensures var s := Run(FRESH, steps);
            && (forall r :: r in s.reports ==>
                  WasTable(steps, r.events) && r.totalEvents == Wrap(SumOf(r.events)) && r.eventsFailed == 0)
            && (s.printer.Copied? || s.printer.Read? ==> WasTable(steps, s.printer.events))
  {
    if steps != [] {
      var rest, step := steps[..|steps| - 1], steps[|steps| - 1];
      var s, s' := Run(FRESH, rest), Run(FRESH, steps);
      ReportsShowTables(rest);
      assert steps == rest + [step];
      forall table | WasTable(rest, table) ensures WasTable(steps, table) { WasTableStill(rest, step, table); }
      assert rest[..|rest|] == rest && WasTable(rest, s.table);
    }
  }
}

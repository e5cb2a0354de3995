/** The summary counters, used by one caller at a time. */
module Summary {
  import opened Base

  /** One AddEventStreamEvents call. */
  datatype Add = Add(topic: string, count: u64)

  type Table = map<string, u64>

  datatype Report = Report(totalEvents: u64, eventsExported: u64, eventsFailed: u64, events: Table)

  /** LoadOrStore, then Store of the loaded value plus the count: a new topic is stored, and added to. */
  function AddTo(m: Table, topic: string, count: u64): Table {
    m[topic := Add64(if topic in m then m[topic] else count, count)]
  }

  /** The same with LoadOrStore's `loaded` flag respected. */
  function AddOnce(m: Table, topic: string, count: u64): Table {
    m[topic := if topic in m then Add64(m[topic], count) else count]
  }

  function TableOf(adds: seq<Add>): Table {
    if adds == [] then map[]
    else var a := adds[|adds| - 1]; AddTo(TableOf(adds[..|adds| - 1]), a.topic, a.count)
  }

  function RepairedTableOf(adds: seq<Add>): Table {
    if adds == [] then map[]
    else var a := adds[|adds| - 1]; AddOnce(RepairedTableOf(adds[..|adds| - 1]), a.topic, a.count)
  }

  function Topics(adds: seq<Add>): set<string> {
    set i | 0 <= i < |adds| :: adds[i].topic
  }

  /** The sum of the counts added for `topic`. */
  function Added(adds: seq<Add>, topic: string): nat {
    if adds == [] then 0
    else var a := adds[|adds| - 1]; Added(adds[..|adds| - 1], topic) + if a.topic == topic then a.count else 0
  }

  /** The count of the first add for `topic`. */
  function FirstCount(adds: seq<Add>, topic: string): u64 {
    if adds == [] then 0
    else if adds[0].topic == topic then adds[0].count
    else FirstCount(adds[1..], topic)
  }

  function AllAdded(adds: seq<Add>): nat {
    if adds == [] then 0 else AllAdded(adds[..|adds| - 1]) + adds[|adds| - 1].count
  }

  /** The sum, over the topics present, of their first counts. */
  function AllFirst(adds: seq<Add>): nat {
    if adds == [] then 0
    else
      var rest, a := adds[..|adds| - 1], adds[|adds| - 1];
      AllFirst(rest) + if a.topic in Topics(rest) then 0 else a.count
  }

  ghost predicate Unit(adds: seq<Add>) {
    forall i :: 0 <= i < |adds| ==> adds[i].count == 1
  }

  ghost function SumOf(m: Table): nat {
    if m == map[] then 0
    else var k :| k in m; m[k] + SumOf(m - {k})
  }

  lemma {:induction false} SumRemove(m: Table, k: string)
    requires k in m
    ensures SumOf(m) == m[k] + SumOf(m - {k})
  {
    var c :| c in m && SumOf(m) == m[c] + SumOf(m - {c});
    if c != k {
      SumRemove(m - {c}, k);
      SumRemove(m - {k}, c);
      assert m - {c} - {k} == m - {k} - {c};
    }
  }

  lemma SumUpdate(m: Table, k: string, v: u64)
    ensures SumOf(m[k := v]) == SumOf(m) + v - if k in m then m[k] else 0
  {
    SumRemove(m[k := v], k);
    assert m[k := v] - {k} == m - {k};
    if k in m { SumRemove(m, k); } else { assert m - {k} == m; }
  }

  lemma {:induction false} FirstCountAppend(adds: seq<Add>, a: Add, topic: string)
    ensures FirstCount(adds + [a], topic)
            == if topic in Topics(adds) then FirstCount(adds, topic) else if a.topic == topic then a.count else 0
  {
    if adds != [] {
      assert (adds + [a])[1..] == adds[1..] + [a];
      if adds[0].topic != topic {
        FirstCountAppend(adds[1..], a, topic);
        assert topic in Topics(adds) <==> topic in Topics(adds[1..]) by {
          forall i | 0 <= i < |adds| && adds[i].topic == topic ensures topic in Topics(adds[1..]) {
            assert adds[1..][i - 1] == adds[i];
          }
        }
      }
    }
  }

  lemma TopicsAppend(adds: seq<Add>, a: Add)
    ensures Topics(adds + [a]) == Topics(adds) + {a.topic}
  {
    var whole := adds + [a];
    forall t | t in Topics(adds) ensures t in Topics(whole) {
      var i :| 0 <= i < |adds| && adds[i].topic == t;
      assert whole[i].topic == t;
    }
    assert whole[|adds|].topic == a.topic;
  }

  lemma {:induction false} NoneAdded(adds: seq<Add>, topic: string)
    requires topic !in Topics(adds)
    ensures Added(adds, topic) == 0
  {
    if adds != [] {
      var rest := adds[..|adds| - 1];
      assert adds == rest + [adds[|adds| - 1]];
      TopicsAppend(rest, adds[|adds| - 1]);
      NoneAdded(rest, topic);
    }
  }

  lemma {:induction false} TableTopics(adds: seq<Add>)
    ensures TableOf(adds).Keys == Topics(adds) && RepairedTableOf(adds).Keys == Topics(adds)
  {
    if adds != [] {
      var rest, a := adds[..|adds| - 1], adds[|adds| - 1];
      assert adds == rest + [a];
      TableTopics(rest);
      TopicsAppend(rest, a);
    }
  }

  /** What a topic's counter shows, before wrap-around: its true sum, plus its first count once more. */
  function Shown(adds: seq<Add>, topic: string): nat {
    Added(adds, topic) + FirstCount(adds, topic)
  }

  lemma ShownAppend(adds: seq<Add>, a: Add, topic: string)
    ensures topic !in Topics(adds) ==> Shown(adds, topic) == 0
    ensures Shown(adds + [a], topic)
            == Shown(adds, topic)
               + if a.topic != topic then 0 else if topic in Topics(adds) then a.count else a.count + a.count
  {
    assert (adds + [a])[..|adds|] == adds;
    FirstCountAppend(adds, a, topic);
    if topic !in Topics(adds) { NoneAdded(adds, topic); NoneFirst(adds, topic); }
  }

  lemma {:induction false} NoneFirst(adds: seq<Add>, topic: string)
    requires topic !in Topics(adds)
    ensures FirstCount(adds, topic) == 0
  {
    if adds != [] {
      assert adds[0].topic in Topics(adds);
      forall t | t in Topics(adds[1..]) ensures t in Topics(adds) {
        var i :| 0 <= i < |adds[1..]| && adds[1..][i].topic == t;
        assert adds[i + 1].topic == t;
      }
      NoneFirst(adds[1..], topic);
    }
  }

  lemma TableOfAppend(adds: seq<Add>, a: Add)
    ensures TableOf(adds + [a]) == AddTo(TableOf(adds), a.topic, a.count)
    ensures RepairedTableOf(adds + [a]) == AddOnce(RepairedTableOf(adds), a.topic, a.count)
  {
  }

  /** Each present topic reads its true sum plus its first count once more. */
  lemma {:induction false} TableCountsFirstTwice(adds: seq<Add>, topic: string)
    ensures topic in TableOf(adds) <==> topic in Topics(adds)
    ensures topic in TableOf(adds) ==> TableOf(adds)[topic] == Wrap(Added(adds, topic) + FirstCount(adds, topic))
  {
    TableTopics(adds);
    if adds != [] {
      var rest, a := adds[..|adds| - 1], adds[|adds| - 1];
      TableCountsFirstTwice(rest, topic);
      CountStep(rest, a, topic);
      assert adds == rest + [a];
      assert topic in TableOf(adds) ==> TableOf(adds)[topic] == Wrap(Shown(adds, topic));
    }
  }

  lemma CountStep(rest: seq<Add>, a: Add, topic: string)
    requires topic in TableOf(rest) <==> topic in Topics(rest)
    requires topic in TableOf(rest) ==> TableOf(rest)[topic] == Wrap(Shown(rest, topic))
    ensures topic in TableOf(rest + [a]) ==> TableOf(rest + [a])[topic] == Wrap(Shown(rest + [a], topic))
  {
    TableOfAppend(rest, a);
    ShownAppend(rest, a, topic);
    WrapAdd(Shown(rest, topic), a.count);
  }

  /** So a present topic's count is right exactly when its first add was of zero events. */
  lemma CountExactIff(adds: seq<Add>, topic: string)
    requires topic in Topics(adds)
    ensures topic in TableOf(adds)
    ensures TableOf(adds)[topic] == Wrap(Added(adds, topic)) <==> FirstCount(adds, topic) == 0
  {
    TableCountsFirstTwice(adds, topic);
    var n, f := Added(adds, topic), FirstCount(adds, topic);
    WrapAdd(n, f);
  }

  lemma AddToSum(m: Table, topic: string, count: u64, total: int)
    requires Wrap(SumOf(m)) == Wrap(total)
    ensures Wrap(SumOf(AddTo(m, topic, count))) == Wrap(total + if topic in m then count else count + count)
    ensures Wrap(SumOf(AddOnce(m, topic, count))) == Wrap(total + count)
  {
    if topic in m { AddToKnown(m, topic, count, total); } else { AddToNew(m, topic, count, total); }
  }

  lemma AddToKnown(m: Table, topic: string, count: u64, total: int)
    requires topic in m && Wrap(SumOf(m)) == Wrap(total)
    ensures Wrap(SumOf(m[topic := Add64(m[topic], count)])) == Wrap(total + count)
  {
    SumUpdate(m, topic, Add64(m[topic], count));
    WrapAdd(m[topic] + count, SumOf(m) - m[topic]);
    WrapSame(SumOf(m), total, count);
  }

  lemma AddToNew(m: Table, topic: string, count: u64, total: int)
    requires topic !in m && Wrap(SumOf(m)) == Wrap(total)
    ensures Wrap(SumOf(m[topic := Add64(count, count)])) == Wrap(total + (count + count))
    ensures Wrap(SumOf(m[topic := count])) == Wrap(total + count)
  {
    SumUpdate(m, topic, Add64(count, count));
    SumUpdate(m, topic, count);
    WrapAdd(count + count, SumOf(m));
    WrapSame(SumOf(m), total, count + count);
    WrapSame(SumOf(m), total, count);
  }

  /** The printed total exceeds what was added by the first counts of the topics present. */
  lemma {:induction false} TableTotal(adds: seq<Add>)
    ensures Wrap(SumOf(TableOf(adds))) == Wrap(AllAdded(adds) + AllFirst(adds))
    ensures Wrap(SumOf(RepairedTableOf(adds))) == Wrap(AllAdded(adds))
  {
    if adds != [] {
      var rest, a := adds[..|adds| - 1], adds[|adds| - 1];
      TableTotal(rest);
      TableTopics(rest);
      TotalStep(rest, a, AllAdded(adds) + AllFirst(adds));
      assert adds == rest + [a];
    }
  }

  lemma TotalStep(rest: seq<Add>, a: Add, n: nat)
    requires n == AllAdded(rest + [a]) + AllFirst(rest + [a])
    requires Wrap(SumOf(TableOf(rest))) == Wrap(AllAdded(rest) + AllFirst(rest))
    requires Wrap(SumOf(RepairedTableOf(rest))) == Wrap(AllAdded(rest))
    ensures Wrap(SumOf(TableOf(rest + [a]))) == Wrap(n)
    ensures Wrap(SumOf(RepairedTableOf(rest + [a]))) == Wrap(AllAdded(rest + [a]))
  {
    TableTopics(rest);
    assert (rest + [a])[..|rest|] == rest;
    AddToSum(TableOf(rest), a.topic, a.count, AllAdded(rest) + AllFirst(rest));
    AddToSum(RepairedTableOf(rest), a.topic, a.count, AllAdded(rest));
  }

  /** With the `loaded` flag respected, every count is exact. */
  lemma {:induction false} RepairedTableIsExact(adds: seq<Add>, topic: string)
    requires topic in Topics(adds)
    ensures topic in RepairedTableOf(adds)
    ensures RepairedTableOf(adds)[topic] == Wrap(Added(adds, topic))
  {
    TableTopics(adds);
    var rest, a := adds[..|adds| - 1], adds[|adds| - 1];
    assert adds == rest + [a];
    TableTopics(rest);
    TopicsAppend(rest, a);
    if topic in Topics(rest) {
      RepairedTableIsExact(rest, topic);
      WrapAdd(Added(rest, topic), a.count);
    } else {
      NoneAdded(rest, topic);
    }
  }

  lemma {:induction false} UnitSums(adds: seq<Add>)
    requires Unit(adds)
    ensures AllAdded(adds) == |adds| && AllFirst(adds) == |Topics(adds)|
    ensures forall t :: t in Topics(adds) ==> FirstCount(adds, t) == 1
  {
    if adds != [] {
      var rest, a := adds[..|adds| - 1], adds[|adds| - 1];
      assert adds == rest + [a];
      UnitSums(rest);
      TopicsAppend(rest, a);
      if a.topic in Topics(rest) { assert Topics(adds) == Topics(rest); }
      forall t | t in Topics(adds) ensures FirstCount(adds, t) == 1 { FirstCountAppend(rest, a, t); }
    }
  }

  lemma TotalIs(adds: seq<Add>, n: nat)
    requires n == AllAdded(adds) + AllFirst(adds)
    ensures Wrap(SumOf(TableOf(adds))) == Wrap(n)
  {
    TableTotal(adds);
  }

  lemma UnitTotal(adds: seq<Add>, n: nat)
    requires Unit(adds) && n == |adds| + |Topics(adds)|
    ensures Wrap(SumOf(TableOf(adds))) == Wrap(n)
  {
    UnitSums(adds);
    TotalIs(adds, n);
  }

  lemma UnitCount(adds: seq<Add>, topic: string)
    requires Unit(adds) && topic in Topics(adds)
    ensures topic in TableOf(adds) && TableOf(adds)[topic] == Wrap(Added(adds, topic) + 1)
  {
    UnitSums(adds);
    TableCountsFirstTwice(adds, topic);
  }

  /** The law of the sidecar's own use, one unit add per export: every present count is one too many, */
  lemma ExportCountLaw(adds: seq<Add>, topic: string)
    requires Unit(adds)
    ensures topic in TableOf(adds) <==> topic in Topics(adds)
    ensures topic in TableOf(adds) ==> TableOf(adds)[topic] == Wrap(Added(adds, topic) + 1)
  {
    TableTopics(adds);
    if topic in Topics(adds) { UnitCount(adds, topic); }
  }

  /** and the total exceeds the exports by the number of distinct topics. */
  lemma ExportTotalLaw(adds: seq<Add>)
    requires Unit(adds)
    ensures Wrap(SumOf(TableOf(adds))) == Wrap(|adds| + |Topics(adds)|)
  {
    UnitTotal(adds, |adds| + |Topics(adds)|);
  }

  lemma PrintedTotal(adds: seq<Add>, exported: nat)
    ensures Wrap(SumOf(TableOf(adds))) == Wrap(AllAdded(adds) + AllFirst(adds))
    ensures Unit(adds) && exported == |adds| ==>
              Wrap(SumOf(TableOf(adds))) == Wrap(Wrap(exported) + |Topics(adds)|)
  {
    TableTotal(adds);
    if Unit(adds) && exported == |adds| {
      UnitTotal(adds, |adds| + |Topics(adds)|);
      WrapAdd(exported, |Topics(adds)|);
    }
  }

  /** Print's loop over the copied counts. */
  method SumCounts(events: Table) returns (total: u64)
    ensures total == Wrap(SumOf(events))
  {
    total := 0;
    var rest := events;
    while rest != map[]
      invariant Wrap(total + SumOf(rest)) == Wrap(SumOf(events))
      decreases |rest|
    {
      var k :| k in rest;
      SumRemove(rest, k);
      WrapAdd(total + rest[k], SumOf(rest - {k}));
      total := Add64(total, rest[k]);
      rest := rest - {k};
    }
  }

  class Summary {
    var eventStreamEvents: Table
    var eventsExported: u64
    var failedEvents: u64
    /** The AddEventStreamEvents calls, and the events counted as exported and failed, since the last reset. */
    ghost var adds: seq<Add>
    ghost var exported: nat
    ghost var failed: nat

    ghost predicate Valid()
      reads this
    {
      && eventStreamEvents == TableOf(adds)
      && eventsExported == Wrap(exported)
      && failedEvents == Wrap(failed)
    }

    constructor ()
      ensures Valid() && adds == [] && exported == 0 && failed == 0
    {
      eventStreamEvents, eventsExported, failedEvents := map[], 0, 0;
      adds, exported, failed := [], 0, 0;
    }

    method AddEventsExported(count: u64)
      requires Valid()
      modifies `eventsExported, `exported
      ensures Valid() && exported == old(exported) + count
    {
      WrapAdd(exported, count);
      eventsExported := Add64(eventsExported, count);
      exported := exported + count;
    }

    method AddFailedEvents(count: u64)
      requires Valid()
      modifies `failedEvents, `failed
      ensures Valid() && failed == old(failed) + count
    {
      WrapAdd(failed, count);
      failedEvents := Add64(failedEvents, count);
      failed := failed + count;
    }

    method AddEventStreamEvents(topic: string, count: u64)
      requires Valid()
      modifies `eventStreamEvents, `adds
      ensures Valid() && adds == old(adds) + [Add(topic, count)]
    {
      var current := count;
      if topic in eventStreamEvents {
        current := eventStreamEvents[topic];
      } else {
        eventStreamEvents := eventStreamEvents[topic := count];
      }
      eventStreamEvents := eventStreamEvents[topic := Add64(current, count)];
      adds := adds + [Add(topic, count)];
      assert adds[..|adds| - 1] == old(adds);
    }

    /** Range over the map, copying it. */
    method GetEventStreamEvents() returns (events: Table)
      requires Valid()
      ensures events == TableOf(adds)
    {
      events := map[];
      var rest := eventStreamEvents.Keys;
      while rest != {}
        invariant rest <= eventStreamEvents.Keys
        invariant events == map k | k in eventStreamEvents && k !in rest :: eventStreamEvents[k]
        decreases rest
      {
        var k :| k in rest;
        events := events[k := eventStreamEvents[k]];
        rest := rest - {k};
      }
    }

    method Reset()
      requires Valid()
      modifies this
      ensures Valid() && adds == [] && exported == 0 && failed == 0
    {
      eventsExported, failedEvents, eventStreamEvents := 0, 0, map[];
      adds, exported, failed := [], 0, 0;
    }

    /** One report, then everything starts over. */
    method Print() returns (report: Report)
      requires Valid()
      modifies this
      ensures Valid() && adds == [] && exported == 0 && failed == 0
      ensures report.events == TableOf(old(adds))
      ensures report.totalEvents == Wrap(AllAdded(old(adds)) + AllFirst(old(adds)))
      ensures report.eventsExported == Wrap(old(exported))
      ensures report.eventsFailed == Wrap(old(failed))
      // Its users add one exported event and one unit topic count at a time.
      ensures Unit(old(adds)) && old(exported) == |old(adds)| ==>
                report.totalEvents == Wrap(report.eventsExported + |Topics(old(adds))|)
    {
      var events := GetEventStreamEvents();
      var total := SumCounts(events);
      PrintedTotal(adds, exported);
      report := Report(total, eventsExported, failedEvents, events);
      Reset();
    }
  }
}

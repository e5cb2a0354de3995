/** The block root to slot cache. */
module Slots {
  import opened Base
  import opened Ttl

  const BLOCK_SLOT_TTL: int := 7 * 60 * 1_000_000_000

  type SlotLog = seq<Use<string, u64>>

  /** Whether Resolve records this pair. */
  predicate Records(root: string, slot: u64) { root != "" && slot != 0 }

  /** Only known slots of named roots are ever recorded. */
  ghost predicate WellFormed(log: SlotLog) {
    forall i :: 0 <= i < |log| ==> Records(log[i].key, log[i].value)
  }

  /** The last slot recorded for `root`, if that recording is at most the TTL old; otherwise 0. */
  ghost function Recorded(log: SlotLog, root: string, now: int): u64 {
    if Seen(log, root, BLOCK_SLOT_TTL, now) && LastUse(log, root).Some? then LastUse(log, root).value.value else 0
  }

  /** What Resolve answers, given the recordings made before it. */
  ghost function Resolved(log: SlotLog, root: string, slot: u64, now: int): u64 {
    if root == "" || slot != 0 then slot else Recorded(log, root, now)
  }

  ghost function Noted(log: SlotLog, root: string, slot: u64, now: int): SlotLog {
    if Records(root, slot) then log + [Use(root, slot, now)] else log
  }

  /** Resolve as one atomic step on the store. */
  function ResolveStore(m: Store<string, u64>, root: string, slot: u64, now: int): Store<string, u64> {
    if Records(root, slot) then Put(m, root, slot, BLOCK_SLOT_TTL, now) else m
  }

  function ResolveSlot(m: Store<string, u64>, root: string, slot: u64, now: int): u64 {
    if root == "" || slot != 0 then slot else if Live(m, root, now) then m[root].value else 0
  }

  /** The step answers from the recordings alone, however much has been evicted. */
  lemma ResolveRefinesLog(m: Store<string, u64>, log: SlotLog, root: string, slot: u64, now: int)
    requires Tracks(m, log, Fixed(BLOCK_SLOT_TTL), now)
    ensures ResolveSlot(m, root, slot, now) == Resolved(log, root, slot, now)
    ensures Tracks(ResolveStore(m, root, slot, now), Noted(log, root, slot, now), Fixed(BLOCK_SLOT_TTL), now)
  {
    LiveIffSeen(m, log, Fixed(BLOCK_SLOT_TTL), now, root);
    PutTracks(m, log, Fixed(BLOCK_SLOT_TTL), now, root, slot);
  }

  /** A recording answers later reads of its root until the TTL has passed or the root is recorded
      again; reads in between change nothing because they leave no trace in the log. */
  lemma RecordedUntilReplaced(log: SlotLog, root: string, slot: u64, at: int, rest: SlotLog, now: int)
    requires Records(root, slot) && Chronological(log + [Use(root, slot, at)] + rest, now)
    requires forall i :: 0 <= i < |rest| ==> rest[i].key != root
    ensures Resolved(log + [Use(root, slot, at)] + rest, root, 0, now)
            == if now - at <= 420_000_000_000 then slot else 0
  {
    var whole := log + [Use(root, slot, at)] + rest;
    assert whole[|log|] == Use(root, slot, at);
    LastUseIsLast(whole, root);
    var i :| 0 <= i < |whole| && whole[i] == LastUse(whole, root).value && whole[i].key == root
             && forall j :: i < j < |whole| ==> whole[j].key != root;
    assert i == |log|;
    forall j | 0 <= j < |whole| && whole[j].key == root ensures whole[j].at <= at {}
  }

  class BlockSlotCache {
    const cache: TtlCache<u64>

    ghost predicate Valid()
      reads this, cache
    {
      cache.Valid() && cache.ttl == BLOCK_SLOT_TTL && WellFormed(cache.log)
    }

    constructor (ghost clock: int)
      ensures Valid() && fresh(cache) && cache.log == [] && cache.clock == clock
    {
      cache := new TtlCache<u64>(BLOCK_SLOT_TTL, clock, 0);
    }

    /** Records `slot` for `root` when both are known; looks the root up when only it is. */
    method Resolve(root: string, slot: u64, now: int) returns (r: u64)
      requires Valid() && cache.clock <= now
      modifies cache
      ensures Valid() && cache.clock <= now
      ensures r == Resolved(old(cache.log), root, slot, now)
      ensures cache.log == Noted(old(cache.log), root, slot, now)
    {
      if root == "" {
        return slot;
      }
      if slot != 0 {
        cache.Set(root, slot, now);
        return slot;
      }
      var item := cache.Get(root, now);
      if item.Some? {
        return item.value;
      }
      return 0;
    }
  }
}

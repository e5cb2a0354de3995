/** The beacon chain's slot/epoch clock and the timing values derived from it. */
module Chain {
  import opened Base

  // Nanoseconds, as in Go's time.Duration.
  const MILLISECOND: int := 1_000_000
  const SECOND: int := 1_000_000_000
  const MAX_DURATION: int := 0x7FFF_FFFF_FFFF_FFFF

  /** How many slots behind the wallclock an event may be. */
  const MAX_SLOT_AGE: u64 := 16

  /** Instants, in nanoseconds since the Unix epoch, with the range of an int64 of Unix milliseconds. */
  type Time = t: int | -0x8000_0000_0000_0000 * 1_000_000 <= t < 0x8000_0000_0000_0000 * 1_000_000

  function UnixMilli(ms: i64): Time { ms * MILLISECOND }

  datatype Mark = Mark(number: u64, start: int)

  /** Slot, epoch and propagation are absent when the block slot is unknown. */
  datatype BlockTiming = BlockTiming(wallclockSlot: Mark, wallclockEpoch: Mark,
                                     slot: Option<Mark>, epoch: Option<Mark>, slotStartDiff: Option<u64>)

  datatype Wallclock = Wallclock(genesisTime: u64, secondsPerSlot: u64, slotsPerEpoch: u64) {
    /** What Ethereum.Validate asks for, in the range where the wallclock's own durations fit an int64. */
    predicate Valid() {
      && 0 < genesisTime <= 0x20_0000_0000_0000
      && 0 < secondsPerSlot <= MAX_DURATION / SECOND
      && 0 < slotsPerEpoch
    }

    function Genesis(): int { genesisTime * SECOND }

    function SlotDuration(): (d: int)
      requires Valid()
      ensures d > 0
    {
      secondsPerSlot * SECOND
    }

    function SlotStart(number: int): int
      requires Valid()
    {
      Genesis() + number * SlotDuration()
    }

    function EpochStart(number: int): int
      requires Valid()
    {
      SlotStart(number * slotsPerEpoch)
    }

    /** FromTime and Now: an error before genesis. */
    function SlotAt(t: Time): Option<u64>
      requires Valid()
    {
      if t < Genesis() then None
      else
        DivShrinks(t - Genesis(), SlotDuration());
        Some((t - Genesis()) / SlotDuration())
    }

    function EpochOf(slot: u64): u64
      requires Valid()
    {
      slot / slotsPerEpoch
    }

    /** Time.Sub saturates, Milliseconds truncates, and a negative difference is clamped. */
    function SlotStartDiff(timestamp: Time, slot: u64): u64
      requires Valid()
    {
      var ms := TruncDiv(Saturate(timestamp - SlotStart(slot)), MILLISECOND);
      if ms < 0 then 0 else ms
    }

    function Timing(timestamp: Time, slot: u64, known: bool): Option<BlockTiming>
      requires Valid()
    {
      match SlotAt(timestamp)
      case None => None
      case Some(current) =>
        Some(BlockTiming(
               Mark(current, SlotStart(current)),
               Mark(EpochOf(current), EpochStart(EpochOf(current))),
               if known then Some(Mark(slot, SlotStart(slot))) else None,
               if known then Some(Mark(EpochOf(slot), EpochStart(EpochOf(slot)))) else None,
               if known then Some(SlotStartDiff(timestamp, slot)) else None))
    }
  }

  function Saturate(d: int): i64 {
    if d > MAX_DURATION then MAX_DURATION else if d < -MAX_DURATION - 1 then -MAX_DURATION - 1 else d
  }

  /** Fills the timing step by step, as the block events do. */
  method NewBlockTiming(clock: Wallclock, timestamp: Time, slot: u64) returns (r: Option<BlockTiming>)
    requires clock.Valid()
    ensures r == clock.Timing(timestamp, slot, slot != 0)
  {
    var current := clock.SlotAt(timestamp);
    if current.None? {
      return None;
    }
    var epoch := clock.EpochOf(current.value);
    var timing := BlockTiming(Mark(current.value, clock.SlotStart(current.value)),
                              Mark(epoch, clock.EpochStart(epoch)), None, None, None);
    if slot == 0 {
      return Some(timing);
    }
    timing := timing.(slot := Some(Mark(slot, clock.SlotStart(slot))));
    epoch := clock.EpochOf(slot);
    timing := timing.(epoch := Some(Mark(epoch, clock.EpochStart(epoch))));
    var diff := TruncDiv(Saturate(timestamp - clock.SlotStart(slot)), MILLISECOND);
    if diff < 0 {
      diff := 0;
    }
    timing := timing.(slotStartDiff := Some(diff));
    return Some(timing);
  }

  /** The age guard, in uint64 arithmetic. */
  predicate TooOld(current: u64, slot: u64) {
    current >= MAX_SLOT_AGE && slot < Sub64(current, MAX_SLOT_AGE)
  }

  /** |drift| in milliseconds; `-ms` cannot overflow because the division comes first. */
  function ClockDriftMillis(drift: i64): (r: u64)
    ensures r == Abs(drift) / MILLISECOND
  {
    var ms: i64 := TruncDiv(drift, MILLISECOND);
    if ms < 0 then
      var negated: i64 := -ms;
      negated
    else ms
  }

  /** The guarded uint64 comparison never underflows: it is the comparison of true integers. */
  lemma TooOldIffBehind(current: u64, slot: u64)
    ensures TooOld(current, slot) <==> slot + MAX_SLOT_AGE < current
  {
  }

  lemma MulLe(a: int, b: int, d: int)
    requires a <= b && 0 <= d
    ensures a * d <= b * d
  {
  }

  lemma DivBounds(x: int, d: int)
    requires d > 0
    ensures x / d * d <= x < (x / d + 1) * d
  {
  }

  lemma DivShrinks(x: int, d: int)
    requires 0 <= x && SECOND <= d
    ensures 0 <= x / d <= x / SECOND
  {
  }

  /** x / d is the only multiple of d that x lies at or less than one d above. */
  lemma DivUnique(x: int, d: int, q: int)
    requires d > 0 && q * d <= x < (q + 1) * d
    ensures x / d == q
  {
    DivBounds(x, d);
    if x / d < q { MulLe(x / d + 1, q, d); }
    if x / d > q { MulLe(q + 1, x / d, d); }
  }

  /** The current slot's window contains the instant. */
  lemma SlotWindow(clock: Wallclock, t: Time)
    requires clock.Valid() && clock.SlotAt(t).Some?
    ensures clock.SlotStart(clock.SlotAt(t).value) <= t < clock.SlotStart(clock.SlotAt(t).value + 1)
  {
    DivBounds(t - clock.Genesis(), clock.SlotDuration());
  }

  lemma SlotAtMonotone(clock: Wallclock, t: Time, later: Time)
    requires clock.Valid() && clock.SlotAt(t).Some? && t <= later
    ensures clock.SlotAt(later).Some? && clock.SlotAt(t).value <= clock.SlotAt(later).value
  {
    SlotWindow(clock, t);
    SlotWindow(clock, later);
    var q, q' := clock.SlotAt(t).value, clock.SlotAt(later).value;
    if q' < q { MulLe(q' + 1, q, clock.SlotDuration()); }
  }

  /** Once too old, always too old. */
  lemma StalenessIsAbsorbing(clock: Wallclock, t: Time, later: Time, slot: u64)
    requires clock.Valid() && clock.SlotAt(t).Some? && t <= later
    requires TooOld(clock.SlotAt(t).value, slot)
    ensures clock.SlotAt(later).Some? && TooOld(clock.SlotAt(later).value, slot)
  {
    SlotAtMonotone(clock, t, later);
    TooOldIffBehind(clock.SlotAt(t).value, slot);
    TooOldIffBehind(clock.SlotAt(later).value, slot);
  }

  /** An event that passes the age check at `checked`, carrying a timestamp no later than that
      reading, reports a propagation below 17 slots. */
  lemma FreshMeansSmallDiff(clock: Wallclock, timestamp: Time, checked: Time, slot: u64)
    requires clock.Valid() && timestamp <= checked
    requires clock.SlotAt(checked).Some? && !TooOld(clock.SlotAt(checked).value, slot)
    ensures clock.SlotStartDiff(timestamp, slot) < (MAX_SLOT_AGE + 1) * 1000 * clock.secondsPerSlot
  {
    var q := clock.SlotAt(checked).value;
    TooOldIffBehind(q, slot);
    SlotWindow(clock, checked);
    MulLe(q + 1, slot + 17, clock.SlotDuration());
    assert clock.SlotStart(slot + 17) == clock.SlotStart(slot) + 17 * clock.SlotDuration();
  }

  /** A slot at most `lead` ahead when first accepted is still acceptable only for less than
      (17 + lead) slots. */
  lemma AcceptanceWindow(clock: Wallclock, slot: u64, first: Time, last: Time, lead: nat)
    requires clock.Valid()
    requires clock.SlotAt(first).Some? && slot <= clock.SlotAt(first).value + lead
    requires clock.SlotAt(last).Some? && !TooOld(clock.SlotAt(last).value, slot)
    ensures last < first + (17 + lead) * clock.SlotDuration()
  {
    var q, q' := clock.SlotAt(first).value, clock.SlotAt(last).value;
    var d := clock.SlotDuration();
    TooOldIffBehind(q', slot);
    SlotWindow(clock, first);
    SlotWindow(clock, last);
    MulLe(q' + 1, q + (lead + 17), d);
    assert (q + (lead + 17)) * d == q * d + (lead + 17) * d;
  }

  lemma EpochHoldsSlot(clock: Wallclock, slot: u64)
    requires clock.Valid()
    ensures var start := clock.EpochStart(clock.EpochOf(slot));
            start <= clock.SlotStart(slot) < start + clock.slotsPerEpoch * clock.SlotDuration()
  {
  }

  // ----- what a timing says, in numbers -----

  /** The start of slot `n`, in nanoseconds, from the configured genesis and slot length. */
  function Starts(clock: Wallclock, n: int): int {
    (clock.genesisTime + n * clock.secondsPerSlot) * 1_000_000_000
  }

  lemma StartsAt(clock: Wallclock, n: int)
    requires clock.Valid()
    ensures clock.SlotStart(n) == Starts(clock, n)
  {
    assert n * (clock.secondsPerSlot * SECOND) == n * clock.secondsPerSlot * SECOND;
  }

  /** The clock gives a slot from genesis on, and at most `n` until slot n + 1 starts. */
  lemma SlotAtMost(clock: Wallclock, t: Time, n: int)
    requires clock.Valid()
    ensures clock.SlotAt(t).Some? <==> Starts(clock, 0) <= t
    ensures clock.SlotAt(t).Some? ==> (clock.SlotAt(t).value <= n <==> t < Starts(clock, n + 1))
  {
    if clock.SlotAt(t).Some? {
      var q := clock.SlotAt(t).value;
      SlotWindow(clock, t);
      StartsAt(clock, n + 1);
      if q <= n { MulLe(q + 1, n + 1, clock.SlotDuration()); } else { MulLe(n + 1, q, clock.SlotDuration()); }
    }
  }

  /** The epoch is the one the slot is in, and starts with its own first slot. */
  predicate EpochSays(clock: Wallclock, slot: u64, epoch: Mark) {
    && epoch.number * clock.slotsPerEpoch <= slot < (epoch.number + 1) * clock.slotsPerEpoch
    && epoch.start == Starts(clock, epoch.number * clock.slotsPerEpoch)
  }

  /** The delay is the time since the slot's start in whole milliseconds, 0 before it, capped by an int64 of
      nanoseconds. Counted in whole slots it is the wallclock's distance to the slot exactly when that
      distance fits under the cap. */
  predicate DelaySays(clock: Wallclock, timestamp: int, slot: u64, current: u64, ms: u64)
    requires clock.Valid()
  {
    var elapsed, cap := timestamp - Starts(clock, slot), 0x7FFF_FFFF_FFFF_FFFF;
    && (elapsed < 0 ==> ms == 0)
    && (0 <= elapsed <= cap ==> ms * 1_000_000 <= elapsed < (ms + 1) * 1_000_000)
    && (cap < elapsed ==> ms == cap / 1_000_000)
    && (current < slot ==> ms == 0)
    && (slot <= current ==>
          (ms / (1000 * clock.secondsPerSlot) == current - slot
           <==> current - slot <= cap / (clock.secondsPerSlot * 1_000_000_000)))
  }

  /** There is a timing from genesis on. It names the slot and epoch of the timestamp; the event's own slot
      and epoch if its slot is known; and with them, if it is sent, the delay. */
  predicate TimingSays(clock: Wallclock, timestamp: int, slot: u64, known: bool, sent: bool,
                       timing: Option<BlockTiming>)
    requires clock.Valid()
  {
    && (timing.Some? <==> Starts(clock, 0) <= timestamp)
    && (timing.Some? ==>
          var t := timing.value;
          var current := t.wallclockSlot.number;
          && Starts(clock, current) == t.wallclockSlot.start <= timestamp < Starts(clock, current + 1)
          && EpochSays(clock, current, t.wallclockEpoch)
          && (t.slot.Some? <==> known) && (t.epoch.Some? <==> known) && (t.slotStartDiff.Some? <==> known && sent)
          && (known ==> t.slot.value == Mark(slot, Starts(clock, slot)) && EpochSays(clock, slot, t.epoch.value))
          && (known && sent ==> DelaySays(clock, timestamp, slot, current, t.slotStartDiff.value)))
  }

  lemma EpochCoherence(clock: Wallclock, slot: u64)
    requires clock.Valid()
    ensures EpochSays(clock, slot, Mark(clock.EpochOf(slot), clock.EpochStart(clock.EpochOf(slot))))
  {
    DivBounds(slot, clock.slotsPerEpoch);
    StartsAt(clock, clock.EpochOf(slot) * clock.slotsPerEpoch);
  }

  lemma DelayCoherence(clock: Wallclock, timestamp: Time, slot: u64)
    requires clock.Valid() && clock.SlotAt(timestamp).Some?
    ensures DelaySays(clock, timestamp, slot, clock.SlotAt(timestamp).value, clock.SlotStartDiff(timestamp, slot))
  {
    var current, d := clock.SlotAt(timestamp).value, clock.SlotDuration();
    StartsAt(clock, slot);
    SlotWindow(clock, timestamp);
    if current < slot { MulLe(current + 1, slot, d); } else { DelayInSlots(clock, timestamp, slot, current); }
  }

  lemma TimingCoherence(clock: Wallclock, timestamp: Time, slot: u64, known: bool)
    requires clock.Valid()
    ensures TimingSays(clock, timestamp, slot, known, true, clock.Timing(timestamp, slot, known))
  {
    SlotAtMost(clock, timestamp, 0);
    if clock.SlotAt(timestamp).Some? {
      var current := clock.SlotAt(timestamp).value;
      SlotWindow(clock, timestamp);
      StartsAt(clock, current);
      StartsAt(clock, current + 1);
      StartsAt(clock, slot);
      EpochCoherence(clock, current);
      EpochCoherence(clock, slot);
      DelayCoherence(clock, timestamp, slot);
    }
  }

  lemma DelayInSlots(clock: Wallclock, timestamp: Time, slot: u64, current: u64)
    requires clock.Valid() && slot <= current
    requires clock.SlotStart(current) <= timestamp < clock.SlotStart(current + 1)
    ensures clock.SlotStartDiff(timestamp, slot) / (1000 * clock.secondsPerSlot) == current - slot
            <==> current - slot <= MAX_DURATION / clock.SlotDuration()
  {
    var d, n := clock.SlotDuration(), current - slot;
    var elapsed := timestamp - clock.SlotStart(slot);
    assert clock.SlotStart(current) == clock.SlotStart(slot) + n * d;
    assert clock.SlotStart(current + 1) == clock.SlotStart(slot) + (n + 1) * d;
    MulLe(0, n, d);
    var shown := if elapsed > MAX_DURATION then MAX_DURATION else elapsed;
    WholeSlots(shown, clock.secondsPerSlot);
    DivUnique(elapsed, d, n);
    DivBounds(MAX_DURATION, d);
    if elapsed > MAX_DURATION {
      var cap := MAX_DURATION / d;
      if n < cap { MulLe(n + 1, cap, d); }
    } else if n > MAX_DURATION / d {
      MulLe(MAX_DURATION / d + 1, n, d);
    }
  }

  /** Truncating to milliseconds first does not change the count of whole slots. */
  lemma WholeSlots(ns: int, seconds: int)
    requires 0 <= ns && 0 < seconds
    ensures ns / MILLISECOND / (1000 * seconds) == ns / (seconds * SECOND)
  {
    var ms := ns / MILLISECOND;
    var q := ms / (1000 * seconds);
    DivBounds(ms, 1000 * seconds);
    DivBounds(ns, MILLISECOND);
    assert q * (1000 * seconds) * MILLISECOND == q * (seconds * SECOND);
    assert (q + 1) * (1000 * seconds) * MILLISECOND == (q + 1) * (seconds * SECOND);
    DivUnique(ns, seconds * SECOND, q);
  }
}

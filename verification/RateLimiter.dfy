// The in-memory sliding-window limiter (crates/gobrowse-server/src/rate_limiter.rs): counters on a grid of one
// second, one table of counters per key and one per endpoint. Times are in milliseconds; the clock is a parameter.
module RateLimiter {
  import opened Basics

  // Hits are aggregated by second.
  datatype Slot = Slot(at: nat, count: nat)

  datatype Counter = Counter(windowSecs: nat, slots: seq<Slot>)

  function SlotOf(now: nat): nat { now / 1000 * 1000 }

  // Where the window that ends now begins.
  function Since(now: nat, windowSecs: nat): nat { Max(now - windowSecs * 1000, 0) }

  function Live(slots: seq<Slot>, start: nat): seq<Slot> {
    if slots == [] then []
    else
      var last := slots[|slots| - 1];
      Live(slots[..|slots| - 1], start) + if last.at >= start then [last] else []
  }

  function Total(slots: seq<Slot>): nat {
    if slots == [] then 0 else Total(slots[..|slots| - 1]) + slots[|slots| - 1].count
  }

  function AddHit(slots: seq<Slot>, at: nat): seq<Slot> {
    if slots != [] && slots[|slots| - 1].at == at
    then slots[..|slots| - 1] + [Slot(at, slots[|slots| - 1].count + 1)]
    else slots + [Slot(at, 1)]
  }

  // WindowCounter::hit
  function AfterHit(counter: Counter, now: nat): Counter {
    counter.(slots := AddHit(Live(counter.slots, Since(now, counter.windowSecs)), SlotOf(now)))
  }

  lemma {:induction false} LiveOfPush(slots: seq<Slot>, slot: Slot, start: nat)
    ensures Live(slots + [slot], start) == Live(slots, start) + if slot.at >= start then [slot] else []
  {
    assert (slots + [slot])[..|slots|] == slots;
  }

  lemma {:induction false} TotalOfPush(slots: seq<Slot>, slot: Slot)
    ensures Total(slots + [slot]) == Total(slots) + slot.count
  {
    assert (slots + [slot])[..|slots|] == slots;
  }

  method Retain(slots: seq<Slot>, start: nat) returns (kept: seq<Slot>)
    ensures kept == Live(slots, start)
  {
    kept := [];
    var i := 0;
    while i < |slots|
      invariant 0 <= i <= |slots|
      invariant kept == Live(slots[..i], start)
    {
      LiveOfPush(slots[..i], slots[i], start);
      assert slots[..i + 1] == slots[..i] + [slots[i]];
      if slots[i].at >= start {
        kept := kept + [slots[i]];
      }
      i := i + 1;
    }
    assert slots[..i] == slots;
  }

  method Sum(slots: seq<Slot>) returns (total: nat)
    ensures total == Total(slots)
  {
    total := 0;
    var i := 0;
    while i < |slots|
      invariant 0 <= i <= |slots|
      invariant total == Total(slots[..i])
    {
      TotalOfPush(slots[..i], slots[i]);
      assert slots[..i + 1] == slots[..i] + [slots[i]];
      total := total + slots[i].count;
      i := i + 1;
    }
    assert slots[..i] == slots;
  }

  /** One hit: expired slots go, the current second gains one, and the answer is whether the limit is passed. */
  method Hit(counter: Counter, now: nat, limit: nat) returns (after: Counter, over: bool)
    ensures after == AfterHit(counter, now)
    ensures over <==> Total(after.slots) > limit
  {
    var slots := Retain(counter.slots, Since(now, counter.windowSecs));
    var slot := SlotOf(now);
    if slots != [] && slots[|slots| - 1].at == slot {
      slots := slots[|slots| - 1 := Slot(slot, slots[|slots| - 1].count + 1)];
    } else {
      slots := slots + [Slot(slot, 1)];
    }
    var total := Sum(slots);
    after, over := counter.(slots := slots), total > limit;
  }

  // ---------------------------------------------------------------------------------------------
  // The two tables.

  type Table = map<string, Counter>

  // The counter a check works on: a new one when there is none, or the configured window changed.
  function CounterFor(table: Table, name: string, windowSecs: nat): Counter {
    if name in table && table[name].windowSecs == windowSecs then table[name] else Counter(windowSecs, [])
  }

  function Checked(table: Table, name: string, windowSecs: nat, now: nat): Table {
    table[name := AfterHit(CounterFor(table, name, windowSecs), now)]
  }

  predicate Rejects(table: Table, name: string, windowSecs: nat, limit: nat, now: nat) {
    Total(AfterHit(CounterFor(table, name, windowSecs), now).slots) > limit
  }

  function LiveNow(counter: Counter, now: nat): seq<Slot> { Live(counter.slots, Since(now, counter.windowSecs)) }

  function Pruned(table: Table, now: nat): Table {
    map name | name in table && LiveNow(table[name], now) != [] :: table[name].(slots := LiveNow(table[name], now))
  }

  // One table of `prune`: expired slots go, and names that have none left.
  method RetainBuckets(table: Table, now: nat) returns (kept: Table)
    ensures kept == Pruned(table, now)
  {
    kept := map[];
    var left := table.Keys;
    while left != {}
      invariant left <= table.Keys
      invariant kept == map name | name in table.Keys - left && LiveNow(table[name], now) != [] ::
        table[name].(slots := LiveNow(table[name], now))
      decreases |left|
    {
      var name :| name in left;
      var slots := Retain(table[name].slots, Since(now, table[name].windowSecs));
      if slots != [] {
        kept := kept[name := table[name].(slots := slots)];
      }
      left := left - {name};
    }
  }

  datatype Limiter = Limiter(keys: Table, globals: Table)

  class RateLimiter {
    var keyBuckets: Table
    var globalBuckets: Table

    ghost function View(): Limiter reads this { Limiter(keyBuckets, globalBuckets) }

    constructor ()
      ensures View() == Limiter(map[], map[])
    {
      keyBuckets, globalBuckets := map[], map[];
    }

    method CheckKey(key: string, windowSecs: nat, limit: nat, now: nat) returns (rejected: bool)
      modifies this`keyBuckets
      ensures keyBuckets == Checked(old(keyBuckets), key, windowSecs, now)
      ensures rejected == Rejects(old(keyBuckets), key, windowSecs, limit, now)
    {
      var entry := if key in keyBuckets then keyBuckets[key] else Counter(windowSecs, []);
      if entry.windowSecs != windowSecs {
        entry := Counter(windowSecs, []);
      }
      entry, rejected := Hit(entry, now, limit);
      keyBuckets := keyBuckets[key := entry];
    }

    method CheckGlobal(bucket: string, windowSecs: nat, limit: nat, now: nat) returns (rejected: bool)
      modifies this`globalBuckets
      ensures globalBuckets == Checked(old(globalBuckets), bucket, windowSecs, now)
      ensures rejected == Rejects(old(globalBuckets), bucket, windowSecs, limit, now)
    {
      var entry := if bucket in globalBuckets then globalBuckets[bucket] else Counter(windowSecs, []);
      if entry.windowSecs != windowSecs {
        entry := Counter(windowSecs, []);
      }
      entry, rejected := Hit(entry, now, limit);
      globalBuckets := globalBuckets[bucket := entry];
    }

    /** Of each bucket exactly the slots of its window stay, buckets without any go, and no check from now on can
        tell the difference. */
    method Prune(now: nat)
      modifies this
      ensures View() == Limiter(Pruned(old(keyBuckets), now), Pruned(old(globalBuckets), now))
      ensures forall name :: name in keyBuckets <==> name in old(keyBuckets) && LiveNow(old(keyBuckets)[name], now) != []
      ensures forall name :: name in globalBuckets <==> name in old(globalBuckets) && LiveNow(old(globalBuckets)[name], now) != []
      ensures Alike(View(), old(View()), now)
    {
      PruneIsUnseen(View(), now);
      keyBuckets := RetainBuckets(keyBuckets, now);
      globalBuckets := RetainBuckets(globalBuckets, now);
    }
  }

  // ---------------------------------------------------------------------------------------------
  // Runs.

  datatype Step =
    | Check(global: bool, name: string, windowSecs: nat, limit: nat, now: nat)
    | Prune(now: nat)

  function TableOf(limiter: Limiter, global: bool): Table { if global then limiter.globals else limiter.keys }

  function Next(limiter: Limiter, step: Step): Limiter {
    match step
    case Check(global, name, windowSecs, _, now) =>
      if global then limiter.(globals := Checked(limiter.globals, name, windowSecs, now))
      else limiter.(keys := Checked(limiter.keys, name, windowSecs, now))
    case Prune(now) => Limiter(Pruned(limiter.keys, now), Pruned(limiter.globals, now))
  }

  function After(steps: seq<Step>): Limiter {
    if steps == [] then Limiter(map[], map[]) else Next(After(steps[..|steps| - 1]), steps[|steps| - 1])
  }

  // The answer to a check made after some steps.
  predicate Refused(steps: seq<Step>, check: Step)
    requires check.Check?
  {
    Rejects(TableOf(After(steps), check.global), check.name, check.windowSecs, check.limit, check.now)
  }

  // The clock never goes back.
  ghost predicate Ordered(steps: seq<Step>) {
    forall i, j :: 0 <= i < j < |steps| ==> steps[i].now <= steps[j].now
  }

  // ---------------------------------------------------------------------------------------------
  // Slots.

  lemma {:induction false} LiveOfLive(slots: seq<Slot>, early: nat, late: nat)
    requires early <= late
    ensures Live(Live(slots, early), late) == Live(slots, late)
  {
    if slots != [] {
      var front, last := slots[..|slots| - 1], slots[|slots| - 1];
      LiveOfLive(front, early, late);
      LiveOfPush(Live(front, early), last, late);
      assert Live(front, early) + [] == Live(front, early);
    }
  }

  lemma {:induction false} AddedHitCounts(slots: seq<Slot>, at: nat, start: nat)
    ensures Total(AddHit(slots, at)) == Total(slots) + 1
    ensures Total(Live(AddHit(slots, at), start)) == Total(Live(slots, start)) + if at >= start then 1 else 0
  {
    if slots != [] && slots[|slots| - 1].at == at {
      var front, last := slots[..|slots| - 1], slots[|slots| - 1];
      assert slots == front + [last];
      HitCountsHere(front, last, start);
      HitCountsHere(front, Slot(at, last.count + 1), start);
    } else {
      HitCountsHere(slots, Slot(at, 1), start);
    }
  }

  lemma {:induction false} HitCountsHere(slots: seq<Slot>, slot: Slot, start: nat)
    ensures Total(slots + [slot]) == Total(slots) + slot.count
    ensures Total(Live(slots + [slot], start)) == Total(Live(slots, start)) + if slot.at >= start then slot.count else 0
  {
    TotalOfPush(slots, slot);
    LiveOfPush(slots, slot, start);
    TotalOfPush(Live(slots, start), slot);
    assert Live(slots, start) + [] == Live(slots, start);
  }

  // ---------------------------------------------------------------------------------------------
  // What is counted.

  predicate IsHit(step: Step, global: bool, name: string) { step.Check? && step.global == global && step.name == name }

  // The checks of one bucket whose second begins at or after `start`.
  function HitsBySlot(steps: seq<Step>, global: bool, name: string, start: nat): nat {
    if steps == [] then 0
    else
      var last := steps[|steps| - 1];
      HitsBySlot(steps[..|steps| - 1], global, name, start)
      + if IsHit(last, global, name) && SlotOf(last.now) >= start then 1 else 0
  }

  // The checks of one bucket made at or after `start`.
  function HitsSince(steps: seq<Step>, global: bool, name: string, start: int): nat {
    if steps == [] then 0
    else
      var last := steps[|steps| - 1];
      HitsSince(steps[..|steps| - 1], global, name, start) + if IsHit(last, global, name) && last.now >= start then 1 else 0
  }

  // The checks of one bucket that were allowed between two instants.
  ghost function AllowedBetween(steps: seq<Step>, global: bool, name: string, from: nat, to: int): nat {
    if steps == [] then 0
    else
      var front, last := steps[..|steps| - 1], steps[|steps| - 1];
      AllowedBetween(front, global, name, from, to)
      + if IsHit(last, global, name) && from <= last.now <= to && !Refused(front, last) then 1 else 0
  }

  // One bucket is always checked with the same window and limit.
  ghost predicate Configured(steps: seq<Step>, global: bool, name: string, windowSecs: nat, limit: nat) {
    forall i :: 0 <= i < |steps| && IsHit(steps[i], global, name) ==>
      steps[i].windowSecs == windowSecs && steps[i].limit == limit
  }

  // The slots a check with this window would find.
  function SlotsFor(limiter: Limiter, global: bool, name: string, windowSecs: nat): seq<Slot> {
    CounterFor(TableOf(limiter, global), name, windowSecs).slots
  }

  ghost predicate InWindow(steps: seq<Step>, windowSecs: nat, start: nat) {
    steps != [] ==> start >= Since(steps[|steps| - 1].now, windowSecs)
  }

  lemma {:induction false} SlotsAfterStep(limiter: Limiter, step: Step, global: bool, name: string, windowSecs: nat)
    requires IsHit(step, global, name) ==> step.windowSecs == windowSecs
    ensures var slots := SlotsFor(limiter, global, name, windowSecs);
      SlotsFor(Next(limiter, step), global, name, windowSecs) ==
        if IsHit(step, global, name) then AddHit(Live(slots, Since(step.now, windowSecs)), SlotOf(step.now))
        else if step.Prune? then Live(slots, Since(step.now, windowSecs))
        else slots
  {
    hide AddHit, SlotOf, Since;
  }

  /** From the window of the last step on, a bucket holds exactly the checks made of it, by second. */
  lemma {:induction false} SlotsCountHits(steps: seq<Step>, global: bool, name: string, windowSecs: nat, limit: nat, start: nat)
    requires Ordered(steps) && Configured(steps, global, name, windowSecs, limit) && InWindow(steps, windowSecs, start)
    ensures Total(Live(SlotsFor(After(steps), global, name, windowSecs), start)) == HitsBySlot(steps, global, name, start)
  {
    if steps != [] {
      var front, last := steps[..|steps| - 1], steps[|steps| - 1];
      SlotsCountHits(front, global, name, windowSecs, limit, start);
      SlotsAfterStep(After(front), last, global, name, windowSecs);
      hide AddHit, SlotsFor, Next, Live, Total;
      var slots := SlotsFor(After(front), global, name, windowSecs);
      LiveOfLive(slots, Since(last.now, windowSecs), start);
      AddedHitCounts(Live(slots, Since(last.now, windowSecs)), SlotOf(last.now), start);
    } else {
      assert SlotsFor(After(steps), global, name, windowSecs) == [];
    }
  }

  lemma {:induction false} SlotsBracketHits(steps: seq<Step>, global: bool, name: string, start: int)
    ensures HitsSince(steps, global, name, start + 999) <= HitsBySlot(steps, global, name, Max(start, 0))
    ensures HitsBySlot(steps, global, name, Max(start, 0)) <= HitsSince(steps, global, name, start)
  {
    if steps != [] {
      SlotsBracketHits(steps[..|steps| - 1], global, name, start);
    }
  }

  lemma {:induction false} FrontOf(steps: seq<Step>, last: Step, global: bool, name: string, windowSecs: nat, limit: nat)
    requires Ordered(steps + [last]) && Configured(steps + [last], global, name, windowSecs, limit)
    ensures Ordered(steps) && Configured(steps, global, name, windowSecs, limit)
    ensures InWindow(steps, windowSecs, Since(last.now, windowSecs))
    ensures After(steps + [last]) == Next(After(steps), last)
  {
    var all := steps + [last];
    assert all[..|steps|] == steps;
    assert forall i :: 0 <= i < |steps| ==> all[i] == steps[i];
    assert all[|steps|] == last;
  }

  lemma {:induction false} LiveIsNoMore(slots: seq<Slot>, start: nat)
    ensures Total(Live(slots, start)) <= Total(slots)
  {
    if slots != [] {
      var front, last := slots[..|slots| - 1], slots[|slots| - 1];
      LiveIsNoMore(front, start);
      assert slots == front + [last];
      HitCountsHere(front, last, start);
    }
  }

  // The checks of one bucket.
  function Checks(steps: seq<Step>, global: bool, name: string): nat {
    if steps == [] then 0
    else Checks(steps[..|steps| - 1], global, name) + if IsHit(steps[|steps| - 1], global, name) then 1 else 0
  }

  function BucketSlots(limiter: Limiter, global: bool, name: string): seq<Slot> {
    if name in TableOf(limiter, global) then TableOf(limiter, global)[name].slots else []
  }

  lemma {:induction false} StepCounts(limiter: Limiter, step: Step, global: bool, name: string)
    ensures Total(BucketSlots(Next(limiter, step), global, name)) <=
      Total(BucketSlots(limiter, global, name)) + if IsHit(step, global, name) then 1 else 0
  {
    var slots := BucketSlots(limiter, global, name);
    if IsHit(step, global, name) {
      var found := CounterFor(TableOf(limiter, global), name, step.windowSecs).slots;
      LiveIsNoMore(found, Since(step.now, step.windowSecs));
      AddedHitCounts(Live(found, Since(step.now, step.windowSecs)), SlotOf(step.now), 0);
    } else if step.Prune? && name in TableOf(limiter, global) {
      LiveIsNoMore(slots, Since(step.now, TableOf(limiter, global)[name].windowSecs));
    }
  }

  /** In any run no bucket counts more than the checks made of it: a 32-bit counter is enough while these are fewer
      than 2^32. */
  lemma {:induction false} CountsStayBelowChecks(steps: seq<Step>, global: bool, name: string)
    ensures Total(BucketSlots(After(steps), global, name)) <= Checks(steps, global, name)
  {
    hide BucketSlots, Next, Total;
    if steps != [] {
      CountsStayBelowChecks(steps[..|steps| - 1], global, name);
      StepCounts(After(steps[..|steps| - 1]), steps[|steps| - 1], global, name);
    } else {
      NoSlotsAtFirst(global, name);
    }
  }

  lemma {:induction false} NoSlotsAtFirst(global: bool, name: string)
    ensures Total(BucketSlots(After([]), global, name)) == 0
  {
  }

  /** The number a check compares with the limit: itself, and earlier checks of its window, to within 999 ms. */
  lemma {:induction false} CountIsBracketed(steps: seq<Step>, check: Step)
    requires check.Check? && Ordered(steps + [check])
    requires Configured(steps + [check], check.global, check.name, check.windowSecs, check.limit)
    ensures var counted := Total(SlotsFor(After(steps + [check]), check.global, check.name, check.windowSecs));
      var start := check.now - check.windowSecs * 1000;
      && (Refused(steps, check) <==> counted > check.limit)
      && HitsSince(steps, check.global, check.name, start + 999) + 1 <= counted
      && counted <= HitsSince(steps, check.global, check.name, start) + 1
  {
    hide Ordered, Configured, SlotsFor, Next, Live, AddHit, Total, HitsSince, HitsBySlot, InWindow, Refused, After, SlotOf;
    var start := check.now - check.windowSecs * 1000;
    var slots := SlotsFor(After(steps), check.global, check.name, check.windowSecs);
    FrontOf(steps, check, check.global, check.name, check.windowSecs, check.limit);
    SlotsCountHits(steps, check.global, check.name, check.windowSecs, check.limit, Since(check.now, check.windowSecs));
    SlotsAfterStep(After(steps), check, check.global, check.name, check.windowSecs);
    SlotsBracketHits(steps, check.global, check.name, start);
    RefusedByCount(steps, check);
    AddedHitCounts(Live(slots, Since(check.now, check.windowSecs)), SlotOf(check.now), 0);
  }

  lemma {:induction false} RefusedByCount(steps: seq<Step>, check: Step)
    requires check.Check?
    ensures Refused(steps, check) <==>
      Total(SlotsFor(Next(After(steps), check), check.global, check.name, check.windowSecs)) > check.limit
  {
    hide AddHit, Live, SlotOf, Since, Total;
  }

  lemma {:induction false} AllowedAreHits(steps: seq<Step>, global: bool, name: string, from: nat, to: int)
    ensures AllowedBetween(steps, global, name, from, to) <= HitsSince(steps, global, name, from)
  {
    if steps != [] {
      AllowedAreHits(steps[..|steps| - 1], global, name, from, to);
    }
  }

  lemma {:induction false} HitsSinceShrinks(steps: seq<Step>, global: bool, name: string, early: int, late: int)
    requires early <= late
    ensures HitsSince(steps, global, name, late) <= HitsSince(steps, global, name, early)
  {
    if steps != [] {
      HitsSinceShrinks(steps[..|steps| - 1], global, name, early, late);
    }
  }

  // The last check, if it was allowed, was counted together with every hit since `from`.
  lemma {:induction false} AllowedMeetsLimit(front: seq<Step>, check: Step, from: nat)
    requires check.Check? && Ordered(front + [check]) && !Refused(front, check)
    requires Configured(front + [check], check.global, check.name, check.windowSecs, check.limit)
    requires from <= check.now <= from + check.windowSecs * 1000 - 999
    ensures AllowedBetween(front, check.global, check.name, from, from + check.windowSecs * 1000 - 999) + 1 <= check.limit
  {
    hide Ordered, Configured, Refused, After, SlotsFor, Total, HitsSince, AllowedBetween;
    CountIsBracketed(front, check);
    AllowedAreHits(front, check.global, check.name, from, from + check.windowSecs * 1000 - 999);
    HitsSinceShrinks(front, check.global, check.name, check.now - check.windowSecs * 1000 + 999, from);
  }

  /** In any run, prunes included, an interval of the window less 999 ms holds at most `limit` allowed checks. */
  lemma {:induction false} NoBurst(steps: seq<Step>, global: bool, name: string, windowSecs: nat, limit: nat, from: nat)
    requires Ordered(steps) && Configured(steps, global, name, windowSecs, limit)
    ensures AllowedBetween(steps, global, name, from, from + windowSecs * 1000 - 999) <= limit
  {
    hide Ordered, Configured, Refused, InWindow, After;
    if steps != [] {
      var front, last := steps[..|steps| - 1], steps[|steps| - 1];
      assert steps == front + [last];
      FrontOf(front, last, global, name, windowSecs, limit);
      NoBurst(front, global, name, windowSecs, limit, from);
      if IsHit(last, global, name) && from <= last.now <= from + windowSecs * 1000 - 999 && !Refused(front, last) {
        LastIsConfigured(front, last, global, name, windowSecs, limit);
        AllowedMeetsLimit(front, last, from);
      }
    }
  }

  lemma {:induction false} LastIsConfigured(front: seq<Step>, last: Step, global: bool, name: string, windowSecs: nat, limit: nat)
    requires IsHit(last, global, name) && Configured(front + [last], global, name, windowSecs, limit)
    ensures last.windowSecs == windowSecs && last.limit == limit
  {
    assert (front + [last])[|front|] == last;
  }

  lemma {:induction false} AllowedOfPush(front: seq<Step>, last: Step, global: bool, name: string, from: nat, to: int)
    ensures AllowedBetween(front + [last], global, name, from, to) == AllowedBetween(front, global, name, from, to)
      + if IsHit(last, global, name) && from <= last.now <= to && !Refused(front, last) then 1 else 0
  {
    hide Refused;
    assert (front + [last])[..|front|] == front;
  }

  lemma {:induction false} BothAreAllowed(first: Step, second: Step)
    requires first.Check? && second == first.(now := first.windowSecs * 1000 + 1) && first.limit == 1 && first.now == 999
    ensures !Refused([], first) && !Refused([first], second)
  {
    assert [first][..0] == [];
    assert After([first]) == Next(After([]), first);
    assert SlotsFor(After([]), first.global, first.name, first.windowSecs) == [];
    LoneHit([], Slot(0, 1), 999, first.windowSecs);
    LoneHit([Slot(0, 1)], Slot(SlotOf(second.now), 1), second.now, first.windowSecs);
    hide Refused, SlotsFor, Next, After, Live, AddHit, Total, SlotOf;
    SlotsAfterStep(After([]), first, first.global, first.name, first.windowSecs);
    SlotsAfterStep(After([first]), second, first.global, first.name, first.windowSecs);
    RefusedByCount([], first);
    RefusedByCount([first], second);
  }

  /** One millisecond more and the bound fails: a hit late in its second is forgotten with the second. */
  lemma {:induction false} BoundIsTight(global: bool, name: string, windowSecs: nat)
    requires windowSecs > 0
    ensures var first := Check(global, name, windowSecs, 1, 999);
      var second := Check(global, name, windowSecs, 1, windowSecs * 1000 + 1);
      AllowedBetween([first, second], global, name, 999, 999 + windowSecs * 1000 - 998) == 2
  {
    assert AllowedBetween([], global, name, 999, 999 + windowSecs * 1000 - 998) == 0;
    hide Refused, AllowedBetween;
    var first := Check(global, name, windowSecs, 1, 999);
    var second := Check(global, name, windowSecs, 1, windowSecs * 1000 + 1);
    BothAreAllowed(first, second);
    assert [first, second] == [first] + [second] && [first] == [] + [first];
    AllowedOfPush([first], second, global, name, 999, 999 + windowSecs * 1000 - 998);
    AllowedOfPush([], first, global, name, 999, 999 + windowSecs * 1000 - 998);
  }

  lemma {:induction false} LoneHit(slots: seq<Slot>, hit: Slot, now: nat, windowSecs: nat)
    requires slots == [] || (slots == [Slot(0, 1)] && now > windowSecs * 1000)
    requires hit == Slot(SlotOf(now), 1)
    ensures AddHit(Live(slots, Since(now, windowSecs)), SlotOf(now)) == [hit] && Total([hit]) == 1
  {
    if slots != [] {
      assert Live(slots, Since(now, windowSecs)) == Live(slots[..0], Since(now, windowSecs)) + [];
    }
  }

  // ---------------------------------------------------------------------------------------------
  // Pruning.

  // Two limiters that no check from now on can tell apart.
  ghost predicate Alike(a: Limiter, b: Limiter, now: nat) {
    forall global, name, windowSecs ::
      Live(SlotsFor(a, global, name, windowSecs), Since(now, windowSecs)) == Live(SlotsFor(b, global, name, windowSecs), Since(now, windowSecs))
  }

  lemma {:induction false} AlikeLater(a: Limiter, b: Limiter, early: nat, late: nat)
    requires Alike(a, b, early) && early <= late
    ensures Alike(a, b, late)
  {
    hide SlotsFor, Live;
    forall global, name, windowSecs
      ensures Live(SlotsFor(a, global, name, windowSecs), Since(late, windowSecs)) == Live(SlotsFor(b, global, name, windowSecs), Since(late, windowSecs))
    {
      LiveOfLive(SlotsFor(a, global, name, windowSecs), Since(early, windowSecs), Since(late, windowSecs));
      LiveOfLive(SlotsFor(b, global, name, windowSecs), Since(early, windowSecs), Since(late, windowSecs));
    }
  }

  lemma {:induction false} PruneIsUnseen(limiter: Limiter, now: nat)
    ensures Alike(Next(limiter, Prune(now)), limiter, now)
  {
    forall global, name, windowSecs
      ensures Live(SlotsFor(Next(limiter, Prune(now)), global, name, windowSecs), Since(now, windowSecs))
        == Live(SlotsFor(limiter, global, name, windowSecs), Since(now, windowSecs))
    {
      SlotsAfterStep(limiter, Prune(now), global, name, windowSecs);
      LiveOfLive(SlotsFor(limiter, global, name, windowSecs), Since(now, windowSecs), Since(now, windowSecs));
    }
  }

  lemma {:induction false} AlikeJoin(a: Limiter, b: Limiter, c: Limiter, now: nat)
    requires Alike(a, b, now) && Alike(b, c, now)
    ensures Alike(a, c, now)
  {
    hide SlotsFor, Live, Since;
  }

  // What a check leaves of a bucket, in terms of what a check would find there.
  lemma {:induction false} SlotsAfterCheck(limiter: Limiter, check: Step, global: bool, name: string, windowSecs: nat)
    requires check.Check?
    ensures var found := Live(SlotsFor(limiter, global, name, windowSecs), Since(check.now, windowSecs));
      Live(SlotsFor(Next(limiter, check), global, name, windowSecs), Since(check.now, windowSecs)) ==
        if !IsHit(check, global, name) then found
        else if check.windowSecs == windowSecs then Live(AddHit(found, SlotOf(check.now)), Since(check.now, windowSecs))
        else []
  {
    hide AddHit, SlotOf, Since;
  }

  lemma {:induction false} CheckSeesNoDifference(a: Limiter, b: Limiter, check: Step)
    requires check.Check? && Alike(a, b, check.now)
    ensures Rejects(TableOf(a, check.global), check.name, check.windowSecs, check.limit, check.now) <==>
      Rejects(TableOf(b, check.global), check.name, check.windowSecs, check.limit, check.now)
    ensures Alike(Next(a, check), Next(b, check), check.now)
  {
    hide Live, Since, AddHit, SlotOf, Total, Next;
    assert Live(SlotsFor(a, check.global, check.name, check.windowSecs), Since(check.now, check.windowSecs))
      == Live(SlotsFor(b, check.global, check.name, check.windowSecs), Since(check.now, check.windowSecs));
    hide SlotsFor;
    forall global, name, windowSecs
      ensures Live(SlotsFor(Next(a, check), global, name, windowSecs), Since(check.now, windowSecs))
        == Live(SlotsFor(Next(b, check), global, name, windowSecs), Since(check.now, windowSecs))
    {
      SlotsAfterCheck(a, check, global, name, windowSecs);
      SlotsAfterCheck(b, check, global, name, windowSecs);
    }
  }

  function WithoutPrunes(steps: seq<Step>): seq<Step> {
    if steps == [] then []
    else
      var last := steps[|steps| - 1];
      WithoutPrunes(steps[..|steps| - 1]) + if last.Prune? then [] else [last]
  }

  // The answers to the checks of a run, in order.
  ghost function Answers(steps: seq<Step>): seq<bool> {
    if steps == [] then []
    else
      var front, last := steps[..|steps| - 1], steps[|steps| - 1];
      Answers(front) + if last.Prune? then [] else [Refused(front, last)]
  }

  lemma {:induction false} PrunesLeaveNoTrace(steps: seq<Step>)
    requires Ordered(steps)
    ensures steps != [] ==> Alike(After(steps), After(WithoutPrunes(steps)), steps[|steps| - 1].now)
    ensures Answers(steps) == Answers(WithoutPrunes(steps))
  {
    hide Alike, Next, Rejects;
    if steps != [] {
      var front, last := steps[..|steps| - 1], steps[|steps| - 1];
      var a, b := After(front), After(WithoutPrunes(front));
      PrunesLeaveNoTrace(front);
      assert Alike(a, b, last.now) by {
        if front != [] {
          AlikeLater(a, b, front[|front| - 1].now, last.now);
        } else {
          AlikeSelf(a, last.now);
        }
      }
      if last.Prune? {
        PruneIsUnseen(a, last.now);
        AlikeJoin(Next(a, last), a, b, last.now);
        assert WithoutPrunes(steps) == WithoutPrunes(front);
      } else {
        CheckSeesNoDifference(a, b, last);
        assert WithoutPrunes(steps)[..|WithoutPrunes(front)|] == WithoutPrunes(front);
      }
    }
  }

  lemma {:induction false} AlikeSelf(limiter: Limiter, now: nat)
    ensures Alike(limiter, limiter, now)
  {
    hide SlotsFor, Live, Since;
  }

  /** Two runs with the same checks get the same answers, wherever prunes are made in either. */
  lemma {:induction false} PruningChangesNoDecision(a: seq<Step>, b: seq<Step>)
    requires Ordered(a) && Ordered(b) && WithoutPrunes(a) == WithoutPrunes(b)
    ensures Answers(a) == Answers(b)
  {
    PrunesLeaveNoTrace(a);
    PrunesLeaveNoTrace(b);
  }
}

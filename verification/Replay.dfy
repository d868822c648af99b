// The bounded, process-local replay cache (crates/gobrowse-sandboxd/src/replay.rs).
module Replay {
  import opened Basics
  import opened Protocol

  datatype Slot = Pending | Complete(response: Response)

  datatype Entry = Entry(fingerprint: Fingerprint, slot: Slot)

  datatype Cache = Cache(capacity: nat, entries: map<RequestId, Entry>, order: seq<RequestId>)

  datatype Decision = Execute | Cached(response: Response) | Wait | Conflict | Full

  // The order queue lists exactly the keys of the map, each once, within the capacity.
  ghost predicate Valid(c: Cache) {
    && c.capacity > 0
    && NoDup(c.order)
    && (forall id :: id in c.order <==> id in c.entries)
    && |c.order| <= c.capacity
  }

  lemma {:induction false} ValidSize(c: Cache)
    requires Valid(c)
    ensures |c.entries| == |c.order|
  {
    NoDupSize(c.order);
    assert Elements(c.order) == c.entries.Keys;
  }

  function Empty(capacity: nat): Cache { Cache(capacity, map[], []) }

  predicate IsComplete(entries: map<RequestId, Entry>, id: RequestId) {
    id in entries && entries[id].slot.Complete?
  }

  // Position of the oldest completed entry, or the length of the queue when there is none.
  function OldestComplete(entries: map<RequestId, Entry>, order: seq<RequestId>): (k: nat)
    ensures k <= |order|
    ensures forall j :: 0 <= j < k ==> !IsComplete(entries, order[j])
    ensures k < |order| ==> IsComplete(entries, order[k])
  {
    if order == [] then 0
    else if IsComplete(entries, order[0]) then 0
    else 1 + OldestComplete(entries, order[1..])
  }

  function Admit(c: Cache, id: RequestId, fp: Fingerprint): (Cache, Decision) {
    if id in c.entries then
      if c.entries[id].fingerprint != fp then (c, Decision.Conflict)
      else match c.entries[id].slot
        case Pending => (c, Wait)
        case Complete(response) => (c, Cached(response))
    else if |c.entries| == c.capacity then
      var k := OldestComplete(c.entries, c.order);
      if k == |c.order| then (c, Full)
      else (Claim(c.(entries := c.entries - {c.order[k]}, order := c.order[..k] + c.order[k + 1..]), id, fp), Execute)
    else (Claim(c, id, fp), Execute)
  }

  function Claim(c: Cache, id: RequestId, fp: Fingerprint): Cache {
    c.(entries := c.entries[id := Entry(fp, Pending)], order := c.order + [id])
  }

  function Finish(c: Cache, id: RequestId, fp: Fingerprint, response: Response): Cache {
    if id in c.entries && c.entries[id] == Entry(fp, Pending)
    then c.(entries := c.entries[id := Entry(fp, Complete(response))])
    else c
  }

  // The cache as the daemon holds it: a map and a queue behind one mutex.
  class ReplayCache {
    const capacity: nat
    var entries: map<RequestId, Entry>
    var order: seq<RequestId>

    ghost function View(): Cache reads this { Cache(capacity, entries, order) }

    constructor (capacity: nat)
      requires capacity > 0
      ensures View() == Empty(capacity) && Valid(View())
    {
      this.capacity, entries, order := capacity, map[], [];
    }

    method Position() returns (index: nat)
      ensures index == OldestComplete(entries, order)
    {
      index := 0;
      while index < |order| && !IsComplete(entries, order[index])
        invariant 0 <= index <= |order|
        invariant OldestComplete(entries, order) == index + OldestComplete(entries, order[index..])
      {
        assert order[index..][1..] == order[index + 1..];
        index := index + 1;
      }
    }

    method Begin(id: RequestId, fp: Fingerprint) returns (decision: Decision)
      requires Valid(View())
      modifies this
      ensures Valid(View())
      ensures (View(), decision) == Admit(old(View()), id, fp)
    {
      BeginKeepsValid(View(), id, fp);
      if id in entries {
        if entries[id].fingerprint != fp {
          return Decision.Conflict;
        }
        match entries[id].slot
        case Pending => return Wait;
        case Complete(response) => return Cached(response);
      }
      if |entries| == capacity {
        var index := Position();
        if index == |order| {
          return Full;
        }
        var evicted := order[index];
        order := order[..index] + order[index + 1..];
        entries := entries - {evicted};
      }
      entries := entries[id := Entry(fp, Pending)];
      order := order + [id];
      decision := Execute;
    }

    method Complete(id: RequestId, fp: Fingerprint, response: Response)
      requires Valid(View())
      modifies this
      ensures Valid(View())
      ensures View() == Finish(old(View()), id, fp, response)
    {
      if id !in entries || entries[id].fingerprint != fp || !entries[id].slot.Pending? {
        return;
      }
      entries := entries[id := Entry(fp, Slot.Complete(response))];
    }
  }

  lemma {:induction false} RemoveAt(s: seq<RequestId>, k: nat)
    requires NoDup(s) && k < |s|
    ensures NoDup(s[..k] + s[k + 1..])
    ensures forall x :: x in s[..k] + s[k + 1..] <==> x in s && x != s[k]
  {
    var t := s[..k] + s[k + 1..];
    forall x ensures x in t <==> x in s && x != s[k] {
      if x in s && x != s[k] {
        var i :| 0 <= i < |s| && s[i] == x;
        assert t[if i < k then i else i - 1] == x;
      }
    }
  }

  lemma {:induction false} ClaimKeepsValid(c: Cache, id: RequestId, fp: Fingerprint)
    requires Valid(c) && id !in c.entries && |c.order| < c.capacity
    ensures Valid(Claim(c, id, fp))
  {
    var claimed := Claim(c, id, fp);
    assert claimed.order[|c.order|] == id;
    forall other ensures other in claimed.order <==> other in claimed.entries {
      assert other in claimed.order <==> other in c.order || other == id;
    }
  }

  lemma {:induction false} BeginKeepsValid(c: Cache, id: RequestId, fp: Fingerprint)
    requires Valid(c)
    ensures Valid(Admit(c, id, fp).0)
    ensures Admit(c, id, fp).0.capacity == c.capacity
  {
    ValidSize(c);
    var k := OldestComplete(c.entries, c.order);
    if id in c.entries {
    } else if |c.entries| == c.capacity {
      if k < |c.order| {
        RemoveAt(c.order, k);
        var evicted := c.(entries := c.entries - {c.order[k]}, order := c.order[..k] + c.order[k + 1..]);
        assert Valid(evicted);
        ClaimKeepsValid(evicted, id, fp);
      }
    } else {
      ClaimKeepsValid(c, id, fp);
    }
  }

  /** `Full` is answered exactly when the id is new and every one of the `capacity` slots is pending. */
  lemma {:induction false} FullMeansAllPending(c: Cache, id: RequestId, fp: Fingerprint)
    requires Valid(c)
    ensures Admit(c, id, fp).1.Full?
       <==> id !in c.entries && |c.order| == c.capacity
            && (forall other :: other in c.entries ==> c.entries[other].slot.Pending?)
  {
    ValidSize(c);
    var k := OldestComplete(c.entries, c.order);
    assert k < |c.order| ==> c.order[k] in c.entries;
    forall other | k == |c.order| && other in c.entries
      ensures c.entries[other].slot.Pending?
    {
      var j :| 0 <= j < |c.order| && c.order[j] == other;
      assert !IsComplete(c.entries, c.order[j]);
    }
  }

  /** Beginning changes no other entry, except that a full cache drops its oldest completed one. */
  lemma {:induction false} EvictsOldestComplete(c: Cache, id: RequestId, fp: Fingerprint, other: RequestId)
    requires Valid(c) && other in c.entries && other !in Admit(c, id, fp).0.entries
    ensures c.entries[other].slot.Complete? && |c.order| == c.capacity
    ensures var k := OldestComplete(c.entries, c.order);
      && k < |c.order| && c.order[k] == other
      && (forall j :: 0 <= j < k ==> c.order[j] in c.entries && c.entries[c.order[j]].slot.Pending?)
      && Admit(c, id, fp).0.order == c.order[..k] + c.order[k + 1..] + [id]
  {
    ValidSize(c);
    var k := OldestComplete(c.entries, c.order);
    assert id !in c.entries && |c.entries| == c.capacity && k < |c.order|;
    forall j | 0 <= j < k ensures c.order[j] in c.entries && c.entries[c.order[j]].slot.Pending? {
      assert c.order[j] in c.order && !IsComplete(c.entries, c.order[j]);
    }
  }

  /** What a request is told, case by case, by the slot its id has. */
  lemma {:induction false} DecisionIsExact(c: Cache, id: RequestId, fp: Fingerprint)
    requires Valid(c)
    ensures var (c', decision) := Admit(c, id, fp);
      && (decision.Wait? <==> id in c.entries && c.entries[id] == Entry(fp, Pending))
      && (forall r :: decision == Cached(r) <==> id in c.entries && c.entries[id] == Entry(fp, Complete(r)))
      && (decision.Conflict? <==> id in c.entries && c.entries[id].fingerprint != fp)
      && (decision.Full? <==> id !in c.entries && AllPending(c))
      && (decision.Execute? <==> id !in c.entries && !AllPending(c))
      && (if decision.Execute? then id in c'.entries && c'.entries[id] == Entry(fp, Pending) else c' == c)
  {
    FullMeansAllPending(c, id, fp);
    ValidSize(c);
  }

  // Every one of the slots is taken by a request that has not been answered.
  ghost predicate AllPending(c: Cache) {
    |c.order| == c.capacity && forall id :: id in c.entries ==> c.entries[id].slot.Pending?
  }

  lemma {:induction false} BeginFrame(c: Cache, id: RequestId, fp: Fingerprint, other: RequestId)
    requires Valid(c)
    ensures other != id && other in Admit(c, id, fp).0.entries
        ==> other in c.entries && Admit(c, id, fp).0.entries[other] == c.entries[other]
    ensures other in c.entries && c.entries[other].slot.Pending?
        ==> other in Admit(c, id, fp).0.entries && Admit(c, id, fp).0.entries[other] == c.entries[other]
    ensures other in c.entries && other == id ==> Admit(c, id, fp).0 == c
  {
    ValidSize(c);
  }

  // Whole histories of one process.
  datatype Call =
    | BeginCall(id: RequestId, fp: Fingerprint)
    | CompleteCall(id: RequestId, fp: Fingerprint, response: Response)

  function After(capacity: nat, calls: seq<Call>): Cache {
    if calls == [] then Empty(capacity)
    else
      var before := After(capacity, calls[..|calls| - 1]);
      match calls[|calls| - 1]
      case BeginCall(id, fp) => Admit(before, id, fp).0
      case CompleteCall(id, fp, response) => Finish(before, id, fp, response)
  }

  // What call number m was told.
  function Told(capacity: nat, calls: seq<Call>, m: nat): Decision
    requires m < |calls| && calls[m].BeginCall?
  {
    Admit(After(capacity, calls[..m]), calls[m].id, calls[m].fp).1
  }

  lemma {:induction false} AfterIsValid(capacity: nat, calls: seq<Call>)
    requires capacity > 0
    ensures Valid(After(capacity, calls)) && After(capacity, calls).capacity == capacity
  {
    if calls != [] {
      AfterIsValid(capacity, calls[..|calls| - 1]);
      var before := After(capacity, calls[..|calls| - 1]);
      var call := calls[|calls| - 1];
      if call.BeginCall? {
        BeginKeepsValid(before, call.id, call.fp);
      }
    }
  }

  // Call number e claimed the slot that holds (id, fp) after all of `calls`.
  ghost predicate ClaimedAt(capacity: nat, calls: seq<Call>, id: RequestId, fp: Fingerprint, e: nat) {
    && e < |calls| && calls[e] == BeginCall(id, fp) && Told(capacity, calls, e).Execute?
    && forall m :: e < m < |calls| && calls[m].BeginCall? && calls[m].id == id
         ==> !Told(capacity, calls, m).Execute?
  }

  // No call from number lo up to, not including, number hi completes (id, fp).
  ghost predicate NoCompletion(calls: seq<Call>, id: RequestId, fp: Fingerprint, lo: nat, hi: nat) {
    forall m :: lo <= m < hi && m < |calls| && calls[m].CompleteCall? ==> calls[m].id != id || calls[m].fp != fp
  }

  // How an entry came to be what it is: claimed once at call e, and completed by the first
  // matching completion k after that claim, if any.
  ghost predicate Explained(capacity: nat, calls: seq<Call>, id: RequestId, entry: Entry) {
    exists e: nat ::
      && ClaimedAt(capacity, calls, id, entry.fingerprint, e)
      && match entry.slot
         case Pending => NoCompletion(calls, id, entry.fingerprint, e, |calls|)
         case Complete(r) => exists k: nat ::
             e < k < |calls| && calls[k] == CompleteCall(id, entry.fingerprint, r)
             && NoCompletion(calls, id, entry.fingerprint, e, k)
  }

  lemma {:induction false} ClaimedExtends(capacity: nat, calls: seq<Call>, call: Call, id: RequestId, fp: Fingerprint, e: nat)
    requires ClaimedAt(capacity, calls, id, fp, e)
    requires call.BeginCall? && call.id == id ==> !Admit(After(capacity, calls), id, call.fp).1.Execute?
    ensures ClaimedAt(capacity, calls + [call], id, fp, e)
  {
    var longer := calls + [call];
    assert longer[..e] == calls[..e];
    forall m | e < m < |longer| && longer[m].BeginCall? && longer[m].id == id
      ensures !Told(capacity, longer, m).Execute?
    {
      assert longer[..m] == if m < |calls| then calls[..m] else calls;
      if m < |calls| {
        assert calls[m] == longer[m];
        assert !Told(capacity, calls, m).Execute?;
      }
    }
  }

  lemma {:induction false} ExplainedExtends(capacity: nat, calls: seq<Call>, call: Call, id: RequestId, entry: Entry)
    requires Explained(capacity, calls, id, entry)
    requires call.BeginCall? && call.id == id ==> !Admit(After(capacity, calls), id, call.fp).1.Execute?
    requires entry.slot.Pending? && call.CompleteCall? ==> call.id != id || call.fp != entry.fingerprint
    ensures Explained(capacity, calls + [call], id, entry)
  {
    var longer := calls + [call];
    var e: nat :| ClaimedAt(capacity, calls, id, entry.fingerprint, e)
      && match entry.slot
         case Pending => NoCompletion(calls, id, entry.fingerprint, e, |calls|)
         case Complete(r) => exists k: nat ::
             e < k < |calls| && calls[k] == CompleteCall(id, entry.fingerprint, r)
             && NoCompletion(calls, id, entry.fingerprint, e, k);
    ClaimedExtends(capacity, calls, call, id, entry.fingerprint, e);
    match entry.slot
    case Pending => assert NoCompletion(longer, id, entry.fingerprint, e, |longer|);
    case Complete(r) =>
      var k: nat :| e < k < |calls| && calls[k] == CompleteCall(id, entry.fingerprint, r)
        && NoCompletion(calls, id, entry.fingerprint, e, k);
      assert longer[k] == calls[k];
      assert NoCompletion(longer, id, entry.fingerprint, e, k);
  }

  lemma {:induction false} ClaimIsExplained(capacity: nat, calls: seq<Call>, id: RequestId, fp: Fingerprint)
    requires Admit(After(capacity, calls), id, fp).1.Execute?
    ensures Explained(capacity, calls + [BeginCall(id, fp)], id, Entry(fp, Pending))
  {
    var longer := calls + [BeginCall(id, fp)];
    assert longer[..|calls|] == calls;
    assert ClaimedAt(capacity, longer, id, fp, |calls|);
    assert NoCompletion(longer, id, fp, |calls|, |longer|);
  }

  lemma {:induction false} FinishIsExplained(capacity: nat, calls: seq<Call>, id: RequestId, fp: Fingerprint, r: Response)
    requires Explained(capacity, calls, id, Entry(fp, Pending))
    ensures Explained(capacity, calls + [CompleteCall(id, fp, r)], id, Entry(fp, Complete(r)))
  {
    var call := CompleteCall(id, fp, r);
    var longer := calls + [call];
    var e: nat :| ClaimedAt(capacity, calls, id, fp, e) && NoCompletion(calls, id, fp, e, |calls|);
    ClaimedExtends(capacity, calls, call, id, fp, e);
    assert longer[|calls|] == call && NoCompletion(longer, id, fp, e, |calls|);
  }

  /** In every history, each entry is explained: a cached answer is the one from the first completion
      that matches the claim it belongs to, and no pending entry was granted a second time. */
  lemma {:induction false} EveryEntryIsExplained(capacity: nat, calls: seq<Call>, id: RequestId)
    requires capacity > 0 && id in After(capacity, calls).entries
    ensures Explained(capacity, calls, id, After(capacity, calls).entries[id])
  {
    var n := |calls| - 1;
    var past, call := calls[..n], calls[n];
    var before, after := After(capacity, past), After(capacity, calls);
    AfterIsValid(capacity, past);
    assert calls == past + [call];
    match call {
      case BeginCall(other, fp) =>
        BeginFrame(before, other, fp, id);
        if other == id && id !in before.entries {
          ClaimIsExplained(capacity, past, id, fp);
        } else {
          EveryEntryIsExplained(capacity, past, id);
          ExplainedExtends(capacity, past, call, id, before.entries[id]);
        }
      case CompleteCall(other, fp, r) =>
        EveryEntryIsExplained(capacity, past, id);
        if other == id && before.entries[id] == Entry(fp, Pending) {
          FinishIsExplained(capacity, past, id, fp, r);
        } else {
          ExplainedExtends(capacity, past, call, id, before.entries[id]);
        }
    }
  }

  /** Until a matching completion, a claimed slot survives every other call and is never granted again. */
  lemma {:induction false} PendingIsNeitherEvictedNorGrantedAgain(
      capacity: nat, calls: seq<Call>, e: nat, id: RequestId, fp: Fingerprint)
    requires capacity > 0 && e < |calls|
    requires calls[e] == BeginCall(id, fp) && Told(capacity, calls, e).Execute?
    requires NoCompletion(calls, id, fp, e, |calls|)
    ensures id in After(capacity, calls).entries && After(capacity, calls).entries[id] == Entry(fp, Pending)
    ensures ClaimedAt(capacity, calls, id, fp, e)
  {
    var n := |calls| - 1;
    var past, call := calls[..n], calls[n];
    assert calls == past + [call];
    if e < n {
      assert past[..e] == calls[..e];
      forall m | e <= m < n && past[m].CompleteCall? ensures past[m].id != id || past[m].fp != fp {
        assert calls[m] == past[m];
      }
      PendingIsNeitherEvictedNorGrantedAgain(capacity, past, e, id, fp);
      AfterIsValid(capacity, past);
      if call.BeginCall? {
        BeginFrame(After(capacity, past), call.id, call.fp, id);
      }
      ClaimedExtends(capacity, past, call, id, fp, e);
    } else {
      assert past == calls[..e];
    }
  }
}

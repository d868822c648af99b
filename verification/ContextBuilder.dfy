// Choosing what goes into a model's context (crates/gobrowse-core/src/context.rs, `build_context`): candidates are
// sorted, and taken greedily under a token budget.
module ContextBuilder {
  import opened Basics

  const U32_MAX: nat := 0xFFFF_FFFF

  type U32 = n: nat | n <= U32_MAX

  datatype Source =
    | SystemPolicy | Profile | ActiveTask | RecentConversation | PinnedBook | LibraryRetrieval
    | Autobiography | Skill | Worktree | ToolSchema | CompactionSummary

  datatype Candidate = Candidate(
    source: Source,
    stableId: string,
    content: string,
    tokenEstimate: U32,
    priority: nat,
    required: bool,
    trustLabel: string)

  datatype BuiltContext = BuiltContext(selected: seq<Candidate>, omittedIds: seq<string>, usedTokens: U32, budget: U32)

  function SaturatingAdd(a: U32, b: U32): U32 { Min(a + b, U32_MAX) }

  // ---------------------------------------------------------------------------------------------
  // The order of candidates: required first, then by falling priority, then by identifier.

  predicate AtMost(a: string, b: string) {
    a == "" || (b != "" && (a[0] < b[0] || (a[0] == b[0] && AtMost(a[1..], b[1..]))))
  }

  predicate Before(a: Candidate, b: Candidate) {
    if a.required != b.required then a.required
    else if a.priority != b.priority then a.priority > b.priority
    else AtMost(a.stableId, b.stableId)
  }

  lemma {:induction false} AtMostIsTotal(a: string, b: string)
    ensures AtMost(a, b) || AtMost(b, a)
    ensures AtMost(a, b) && AtMost(b, a) ==> a == b
  {
    if a != "" && b != "" {
      AtMostIsTotal(a[1..], b[1..]);
      assert a == [a[0]] + a[1..] && b == [b[0]] + b[1..];
    }
  }

  lemma {:induction false} AtMostIsTransitive(a: string, b: string, c: string)
    requires AtMost(a, b) && AtMost(b, c)
    ensures AtMost(a, c)
  {
    if a != "" && a[0] == b[0] == c[0] {
      AtMostIsTransitive(a[1..], b[1..], c[1..]);
    }
  }

  lemma {:induction false} BeforeIsTotal(a: Candidate, b: Candidate)
    ensures Before(a, b) || Before(b, a)
    ensures Before(a, b) && Before(b, a) ==> a.stableId == b.stableId && a.required == b.required && a.priority == b.priority
  {
    AtMostIsTotal(a.stableId, b.stableId);
  }

  lemma {:induction false} BeforeIsTransitive(a: Candidate, b: Candidate, c: Candidate)
    requires Before(a, b) && Before(b, c)
    ensures Before(a, c)
  {
    if AtMost(a.stableId, b.stableId) && AtMost(b.stableId, c.stableId) {
      AtMostIsTransitive(a.stableId, b.stableId, c.stableId);
    }
  }

  ghost predicate InOrder(candidates: seq<Candidate>) {
    forall i, j :: 0 <= i < j < |candidates| ==> Before(candidates[i], candidates[j])
  }

  // A stable sort: each candidate goes behind the ones that were before it and need not follow it.
  function Inserted(sorted: seq<Candidate>, candidate: Candidate): seq<Candidate> {
    if sorted == [] || Before(sorted[|sorted| - 1], candidate) then sorted + [candidate]
    else Inserted(sorted[..|sorted| - 1], candidate) + [sorted[|sorted| - 1]]
  }

  function Sorted(candidates: seq<Candidate>): seq<Candidate> {
    if candidates == [] then [] else Inserted(Sorted(candidates[..|candidates| - 1]), candidates[|candidates| - 1])
  }

  lemma {:induction false} InsertedKeeps(sorted: seq<Candidate>, candidate: Candidate)
    ensures multiset(Inserted(sorted, candidate)) == multiset(sorted) + multiset{candidate}
  {
    if sorted != [] && !Before(sorted[|sorted| - 1], candidate) {
      InsertedKeeps(sorted[..|sorted| - 1], candidate);
      assert sorted == sorted[..|sorted| - 1] + [sorted[|sorted| - 1]];
    }
  }

  lemma {:induction false} InsertedIsInOrder(sorted: seq<Candidate>, candidate: Candidate)
    requires InOrder(sorted)
    ensures InOrder(Inserted(sorted, candidate))
  {
    hide Before;
    if sorted != [] {
      var front, last := sorted[..|sorted| - 1], sorted[|sorted| - 1];
      BeforeIsTotal(last, candidate);
      if Before(last, candidate) {
        forall x | x in sorted ensures Before(x, candidate) {
          if x != last {
            BeforeIsTransitive(x, last, candidate);
          }
        }
      } else {
        InsertedIsInOrder(front, candidate);
        InsertedKeeps(front, candidate);
        var inserted := Inserted(front, candidate);
        forall x | x in inserted ensures Before(x, last) {
          assert x in multiset(inserted);
        }
      }
    }
  }

  /** Sorting loses nothing, adds nothing, and puts the candidates in order. */
  lemma {:induction false} SortedSorts(candidates: seq<Candidate>)
    ensures multiset(Sorted(candidates)) == multiset(candidates)
    ensures InOrder(Sorted(candidates))
  {
    if candidates != [] {
      var front, last := candidates[..|candidates| - 1], candidates[|candidates| - 1];
      SortedSorts(front);
      InsertedKeeps(Sorted(front), last);
      InsertedIsInOrder(Sorted(front), last);
      assert candidates == front + [last];
    }
  }

  predicate SameRank(a: Candidate, b: Candidate) {
    a.required == b.required && a.priority == b.priority && a.stableId == b.stableId
  }

  function OfRank(candidates: seq<Candidate>, rank: Candidate): seq<Candidate> {
    if candidates == [] then []
    else
      var last := candidates[|candidates| - 1];
      OfRank(candidates[..|candidates| - 1], rank) + if SameRank(last, rank) then [last] else []
  }

  lemma {:induction false} OfRankOfPush(candidates: seq<Candidate>, last: Candidate, rank: Candidate)
    ensures OfRank(candidates + [last], rank) == OfRank(candidates, rank) + if SameRank(last, rank) then [last] else []
  {
    assert (candidates + [last])[..|candidates|] == candidates;
  }

  lemma {:induction false} InsertedIsStable(sorted: seq<Candidate>, candidate: Candidate, rank: Candidate)
    ensures OfRank(Inserted(sorted, candidate), rank) == OfRank(sorted, rank) + if SameRank(candidate, rank) then [candidate] else []
  {
    hide Before;
    if sorted == [] || Before(sorted[|sorted| - 1], candidate) {
      OfRankOfPush(sorted, candidate, rank);
    } else {
      var front, last := sorted[..|sorted| - 1], sorted[|sorted| - 1];
      InsertedIsStable(front, candidate, rank);
      OfRankOfPush(Inserted(front, candidate), last, rank);
      NotBeforeIsOtherRank(last, candidate);
    }
  }

  lemma {:induction false} NotBeforeIsOtherRank(a: Candidate, b: Candidate)
    requires !Before(a, b)
    ensures !SameRank(a, b)
  {
    AtMostIsTotal(a.stableId, a.stableId);
  }

  /** Candidates of equal rank keep their order. */
  lemma {:induction false} SortedIsStable(candidates: seq<Candidate>, rank: Candidate)
    ensures OfRank(Sorted(candidates), rank) == OfRank(candidates, rank)
  {
    if candidates != [] {
      var front, last := candidates[..|candidates| - 1], candidates[|candidates| - 1];
      SortedIsStable(front, rank);
      InsertedIsStable(Sorted(front), last, rank);
    }
  }

  // ---------------------------------------------------------------------------------------------
  // The greedy choice.

  datatype Choice = Choice(selected: seq<Candidate>, omitted: seq<Candidate>, used: U32)

  predicate Takes(used: U32, candidate: Candidate, budget: U32) {
    SaturatingAdd(used, candidate.tokenEstimate) <= budget || candidate.required
  }

  function Choose(sorted: seq<Candidate>, budget: U32): Choice {
    if sorted == [] then Choice([], [], 0)
    else
      var before, last := Choose(sorted[..|sorted| - 1], budget), sorted[|sorted| - 1];
      if Takes(before.used, last, budget)
      then Choice(before.selected + [last], before.omitted, SaturatingAdd(before.used, last.tokenEstimate))
      else before.(omitted := before.omitted + [last])
  }

  function Ids(candidates: seq<Candidate>): seq<string> {
    seq(|candidates|, i requires 0 <= i < |candidates| => candidates[i].stableId)
  }

  function Built(candidates: seq<Candidate>, budget: U32): BuiltContext {
    var choice := Choose(Sorted(candidates), budget);
    BuiltContext(choice.selected, Ids(choice.omitted), choice.used, budget)
  }

  method BuildContext(candidates: seq<Candidate>, budget: U32) returns (built: BuiltContext)
    ensures built == Built(candidates, budget)
  {
    var sorted := Sorted(candidates);
    var selected: seq<Candidate>, omittedIds: seq<string>, usedTokens: U32 := [], [], 0;
    var i := 0;
    while i < |sorted|
      invariant 0 <= i <= |sorted|
      invariant var choice := Choose(sorted[..i], budget);
        selected == choice.selected && omittedIds == Ids(choice.omitted) && usedTokens == choice.used
    {
      var candidate := sorted[i];
      assert sorted[..i + 1][..i] == sorted[..i];
      var fits := SaturatingAdd(usedTokens, candidate.tokenEstimate) <= budget;
      if fits || candidate.required {
        usedTokens := SaturatingAdd(usedTokens, candidate.tokenEstimate);
        selected := selected + [candidate];
      } else {
        omittedIds := omittedIds + [candidate.stableId];
      }
      i := i + 1;
    }
    assert sorted[..i] == sorted;
    built := BuiltContext(selected, omittedIds, usedTokens, budget);
  }

  // ---------------------------------------------------------------------------------------------
  // What the choice promises.

  function Tokens(candidates: seq<Candidate>): nat {
    if candidates == [] then 0 else Tokens(candidates[..|candidates| - 1]) + candidates[|candidates| - 1].tokenEstimate
  }

  lemma {:induction false} TokensOfPush(candidates: seq<Candidate>, last: Candidate)
    ensures Tokens(candidates + [last]) == Tokens(candidates) + last.tokenEstimate
  {
    assert (candidates + [last])[..|candidates|] == candidates;
  }

  lemma {:induction false} ChoiceLosesNothing(sorted: seq<Candidate>, budget: U32)
    ensures multiset(Choose(sorted, budget).selected) + multiset(Choose(sorted, budget).omitted) == multiset(sorted)
  {
    hide Takes, SaturatingAdd;
    if sorted != [] {
      var front, last := sorted[..|sorted| - 1], sorted[|sorted| - 1];
      ChoiceLosesNothing(front, budget);
      assert sorted == front + [last];
    }
  }

  lemma {:induction false} ChoiceAddsUp(sorted: seq<Candidate>, budget: U32)
    ensures Choose(sorted, budget).used == Min(Tokens(Choose(sorted, budget).selected), U32_MAX)
  {
    if sorted != [] {
      var front, last := sorted[..|sorted| - 1], sorted[|sorted| - 1];
      ChoiceAddsUp(front, budget);
      TokensOfPush(Choose(front, budget).selected, last);
    }
  }

  /** Every candidate is selected or omitted, once; the total is the saturated sum of what was selected. */
  lemma {:induction false} NothingLostOrDuplicated(candidates: seq<Candidate>, budget: U32) returns (omitted: seq<Candidate>)
    ensures var built := Built(candidates, budget);
      && multiset(built.selected) + multiset(omitted) == multiset(candidates)
      && built.omittedIds == Ids(omitted)
      && built.usedTokens == Min(Tokens(built.selected), U32_MAX)
      && built.budget == budget
  {
    omitted := Choose(Sorted(candidates), budget).omitted;
    SortedSorts(candidates);
    ChoiceLosesNothing(Sorted(candidates), budget);
    ChoiceAddsUp(Sorted(candidates), budget);
  }

  function Required(candidates: seq<Candidate>): seq<Candidate> {
    if candidates == [] then []
    else
      var last := candidates[|candidates| - 1];
      Required(candidates[..|candidates| - 1]) + if last.required then [last] else []
  }

  lemma {:induction false} RequiredLead(sorted: seq<Candidate>)
    requires InOrder(sorted)
    ensures var required := Required(sorted);
      required <= sorted && forall i :: |required| <= i < |sorted| ==> !sorted[i].required
  {
    if sorted != [] {
      var front, last := sorted[..|sorted| - 1], sorted[|sorted| - 1];
      RequiredLead(front);
      if last.required && front != [] {
        assert Before(front[|front| - 1], last);
      }
    }
  }

  lemma {:induction false} RequiredAreTaken(required: seq<Candidate>, budget: U32)
    requires forall i :: 0 <= i < |required| ==> required[i].required
    ensures Choose(required, budget).selected == required
  {
    if required != [] {
      RequiredAreTaken(required[..|required| - 1], budget);
    }
  }

  lemma {:induction false} AllRequired(candidates: seq<Candidate>)
    ensures forall i :: 0 <= i < |Required(candidates)| ==> Required(candidates)[i].required
  {
    if candidates != [] {
      AllRequired(candidates[..|candidates| - 1]);
    }
  }

  lemma {:induction false} OptionalAreAdded(sorted: seq<Candidate>, n: nat, budget: U32)
    requires n <= |sorted| && forall i :: n <= i < |sorted| ==> !sorted[i].required
    ensures var first, all := Choose(sorted[..n], budget), Choose(sorted, budget);
      && first.selected <= all.selected
      && (forall i :: |first.selected| <= i < |all.selected| ==> !all.selected[i].required)
      && (forall i :: 0 <= i < |all.omitted| ==> all.omitted[i].required ==> all.omitted[i] in first.omitted)
      && first.used <= all.used
      && (first.used <= budget ==> all.used <= budget)
    decreases |sorted|
  {
    if n == |sorted| {
      assert sorted[..n] == sorted;
    } else {
      var front := sorted[..|sorted| - 1];
      OptionalAreAdded(front, n, budget);
      assert front[..n] == sorted[..n];
    }
  }

  lemma {:induction false} CountRequired(candidates: seq<Candidate>, candidate: Candidate)
    ensures multiset(Required(candidates))[candidate] == if candidate.required then multiset(candidates)[candidate] else 0
  {
    if candidates != [] {
      CountRequired(candidates[..|candidates| - 1], candidate);
      assert candidates == candidates[..|candidates| - 1] + [candidates[|candidates| - 1]];
    }
  }

  lemma {:induction false} SameRequired(a: seq<Candidate>, b: seq<Candidate>)
    requires multiset(a) == multiset(b)
    ensures multiset(Required(a)) == multiset(Required(b))
  {
    forall candidate: Candidate ensures multiset(Required(a))[candidate] == multiset(Required(b))[candidate] {
      CountRequired(a, candidate);
      CountRequired(b, candidate);
    }
  }

  lemma {:induction false} TokensOfJoin(a: seq<Candidate>, b: seq<Candidate>)
    ensures Tokens(a + b) == Tokens(a) + Tokens(b)
  {
    if b == [] {
      assert a + b == a;
    } else {
      TokensOfJoin(a, b[..|b| - 1]);
      assert (a + b)[..|a + b| - 1] == a + b[..|b| - 1];
    }
  }

  lemma {:induction false} MultisetWithout(s: seq<Candidate>, i: nat)
    requires i < |s|
    ensures multiset(s[..i] + s[i + 1..]) == multiset(s) - multiset{s[i]}
  {
    assert s == s[..i] + [s[i]] + s[i + 1..];
  }

  lemma {:induction false} SameTokens(a: seq<Candidate>, b: seq<Candidate>)
    requires multiset(a) == multiset(b)
    ensures Tokens(a) == Tokens(b)
    decreases |a|
  {
    assert |multiset(a)| == |a| && |multiset(b)| == |b|;
    if a != [] {
      var x := a[|a| - 1];
      MultisetWithout(a, |a| - 1);
      assert a[..|a| - 1] + a[|a|..] == a[..|a| - 1];
      assert x in multiset(b);
      var i :| 0 <= i < |b| && b[i] == x;
      assert b == b[..i] + [x] + b[i + 1..];
      MultisetWithout(b, i);
      SameTokens(a[..|a| - 1], b[..i] + b[i + 1..]);
      TokensOfJoin(b[..i], b[i + 1..]);
      TokensOfJoin(b[..i] + [x], b[i + 1..]);
      TokensOfPush(b[..i], x);
    }
  }

  lemma {:induction false} RequiredLeadTheChoice(sorted: seq<Candidate>, budget: U32)
    requires InOrder(sorted)
    ensures var choice, required := Choose(sorted, budget), Required(sorted);
      && required <= choice.selected
      && (forall i :: |required| <= i < |choice.selected| ==> !choice.selected[i].required)
      && (choice.used <= budget <==> Min(Tokens(required), U32_MAX) <= budget)
  {
    hide Before, Takes, SaturatingAdd;
    var required := Required(sorted);
    RequiredLead(sorted);
    AllRequired(sorted);
    RequiredAreTaken(required, budget);
    ChoiceAddsUp(required, budget);
    assert sorted[..|required|] == required;
    OptionalAreAdded(sorted, |required|, budget);
  }

  /** Exactly the required candidates come first, and the budget holds exactly when they alone fit in it. */
  lemma {:induction false} RequiredComeFirst(candidates: seq<Candidate>, budget: U32)
    ensures var built := Built(candidates, budget);
      var n := |Required(candidates)|;
      && n <= |built.selected|
      && multiset(built.selected[..n]) == multiset(Required(candidates))
      && (forall i :: n <= i < |built.selected| ==> !built.selected[i].required)
    ensures Built(candidates, budget).usedTokens <= budget <==> Min(Tokens(Required(candidates)), U32_MAX) <= budget
  {
    hide Required, InOrder, Choose, Sorted;
    var sorted := Sorted(candidates);
    SortedSorts(candidates);
    SameRequired(sorted, candidates);
    SameTokens(Required(sorted), Required(candidates));
    assert |multiset(Required(sorted))| == |Required(sorted)| && |multiset(Required(candidates))| == |Required(candidates)|;
    RequiredLeadTheChoice(sorted, budget);
    assert Choose(sorted, budget).selected[..|Required(sorted)|] == Required(sorted);
  }

  lemma {:induction false} OmittedDoNotFit(sorted: seq<Candidate>, budget: U32)
    ensures forall i :: 0 <= i < |Choose(sorted, budget).omitted| ==>
      SaturatingAdd(Choose(sorted, budget).used, Choose(sorted, budget).omitted[i].tokenEstimate) > budget
      && !Choose(sorted, budget).omitted[i].required
  {
    if sorted != [] {
      OmittedDoNotFit(sorted[..|sorted| - 1], budget);
    }
  }

  /** What is omitted is optional, and would not fit next to what was selected. */
  lemma {:induction false} OmittedWouldNotFit(candidates: seq<Candidate>, budget: U32, candidate: Candidate)
    requires multiset(candidates)[candidate] > multiset(Built(candidates, budget).selected)[candidate]
    ensures !candidate.required
    ensures SaturatingAdd(Built(candidates, budget).usedTokens, candidate.tokenEstimate) > budget
  {
    var choice := Choose(Sorted(candidates), budget);
    SortedSorts(candidates);
    ChoiceLosesNothing(Sorted(candidates), budget);
    OmittedDoNotFit(Sorted(candidates), budget);
    assert candidate in multiset(choice.omitted);
  }

  // ---------------------------------------------------------------------------------------------
  // The order of the input.

  ghost predicate DistinctIds(candidates: seq<Candidate>) {
    forall i, j :: 0 <= i < j < |candidates| ==> candidates[i].stableId != candidates[j].stableId
  }

  lemma {:induction false} SameLast(a: seq<Candidate>, b: seq<Candidate>)
    requires InOrder(a) && InOrder(b) && DistinctIds(a) && multiset(a) == multiset(b) && a != [] && b != []
    ensures a[|a| - 1] == b[|b| - 1]
  {
    hide Before;
    var x, y := a[|a| - 1], b[|b| - 1];
    assert x in multiset(b) && y in multiset(a);
    var i :| 0 <= i < |a| && a[i] == y;
    var j :| 0 <= j < |b| && b[j] == x;
    BeforeIsTotal(x, y);
  }

  lemma {:induction false} FrontInOrder(s: seq<Candidate>)
    requires s != []
    ensures InOrder(s) ==> InOrder(s[..|s| - 1])
    ensures DistinctIds(s) ==> DistinctIds(s[..|s| - 1])
    ensures multiset(s[..|s| - 1]) == multiset(s) - multiset{s[|s| - 1]}
  {
    hide Before;
    MultisetWithout(s, |s| - 1);
    assert s[..|s| - 1] + s[|s|..] == s[..|s| - 1];
  }

  lemma {:induction false} OneOrder(a: seq<Candidate>, b: seq<Candidate>)
    requires InOrder(a) && InOrder(b) && DistinctIds(a) && multiset(a) == multiset(b)
    ensures a == b
  {
    hide InOrder, DistinctIds;
    assert |multiset(a)| == |a| && |multiset(b)| == |b|;
    if a != [] {
      SameLast(a, b);
      FrontInOrder(a);
      FrontInOrder(b);
      OneOrder(a[..|a| - 1], b[..|b| - 1]);
      assert a == a[..|a| - 1] + [a[|a| - 1]] && b == b[..|b| - 1] + [a[|a| - 1]];
    }
  }

  /** With distinct identifiers the result does not depend on the order of the candidates. */
  lemma {:induction false} InputOrderIsIrrelevant(a: seq<Candidate>, b: seq<Candidate>, budget: U32)
    requires multiset(a) == multiset(b) && DistinctIds(a)
    ensures Built(a, budget) == Built(b, budget)
  {
    SortedSorts(a);
    SortedSorts(b);
    DistinctIdsOfSame(a, Sorted(a));
    OneOrder(Sorted(a), Sorted(b));
  }

  lemma {:induction false} DistinctIdsOfSame(a: seq<Candidate>, b: seq<Candidate>)
    requires DistinctIds(a) && multiset(a) == multiset(b)
    ensures DistinctIds(b)
  {
    forall i, j | 0 <= i < j < |b| ensures b[i].stableId != b[j].stableId {
      if b[i].stableId == b[j].stableId {
        assert b[i] in multiset(a) && b[j] in multiset(a);
        var m :| 0 <= m < |a| && a[m] == b[i];
        var n :| 0 <= n < |a| && a[n] == b[j];
        assert m == n;
        SameTwice(b, i, j);
        OnlyOnce(a, m);
        assert false;
      }
    }
  }

  lemma {:induction false} SameTwice(s: seq<Candidate>, i: nat, j: nat)
    requires i < j < |s| && s[i] == s[j]
    ensures multiset(s)[s[i]] >= 2
  {
    assert s == s[..i] + [s[i]] + s[i + 1..j] + [s[j]] + s[j + 1..];
  }

  lemma {:induction false} OnlyOnce(s: seq<Candidate>, m: nat)
    requires DistinctIds(s) && m < |s|
    ensures multiset(s)[s[m]] == 1
  {
    assert s == s[..m] + [s[m]] + s[m + 1..];
    assert s[m] !in s[..m] && s[m] !in s[m + 1..];
  }

  // ---------------------------------------------------------------------------------------------
  // The order and the choice, in their own terms.

  // a comes before b as texts do: it is a beginning of b, or smaller where they first differ.
  ghost predicate Lexicographic(a: string, b: string) {
    a <= b || exists k :: 0 <= k < |a| && k < |b| && a[..k] == b[..k] && a[k] < b[k]
  }

  lemma {:induction false} AtMostIsLexicographic(a: string, b: string)
    ensures AtMost(a, b) <==> Lexicographic(a, b)
  {
    if a != "" && b != "" {
      AtMostIsLexicographic(a[1..], b[1..]);
      if AtMost(a, b) && a[0] == b[0] && !(a[1..] <= b[1..]) {
        var k :| 0 <= k < |a[1..]| && k < |b[1..]| && a[1..][..k] == b[1..][..k] && a[1..][k] < b[1..][k];
        assert a[..k + 1] == [a[0]] + a[1..][..k] && b[..k + 1] == [b[0]] + b[1..][..k];
      } else if AtMost(a, b) && a[0] < b[0] {
        assert a[..0] == b[..0];
      }
      if a <= b {
        assert a[0] == b[0] && a[1..] <= b[1..];
      } else if Lexicographic(a, b) && !(a[0] < b[0]) {
        var k :| 0 <= k < |a| && k < |b| && a[..k] == b[..k] && a[k] < b[k];
        assert k > 0 && a[..k][0] == b[..k][0];
        assert a[1..][..k - 1] == a[..k][1..] && b[1..][..k - 1] == b[..k][1..];
        assert a[1..][k - 1] < b[1..][k - 1];
      }
    }
  }

  /** In the sorted candidates no optional one precedes a required one, and among those priorities fall and, where
      they are equal, identifiers rise. */
  lemma {:induction false} RanksDescend(candidates: seq<Candidate>, i: nat, j: nat)
    requires i < j < |Sorted(candidates)|
    ensures var a, b := Sorted(candidates)[i], Sorted(candidates)[j];
      && (b.required ==> a.required)
      && (a.required == b.required ==> a.priority >= b.priority)
      && (a.required == b.required && a.priority == b.priority ==> Lexicographic(a.stableId, b.stableId))
  {
    SortedSorts(candidates);
    assert Before(Sorted(candidates)[i], Sorted(candidates)[j]);
    AtMostIsLexicographic(Sorted(candidates)[i].stableId, Sorted(candidates)[j].stableId);
    hide Sorted, Lexicographic;
  }

  // The candidates whose flag says so.
  function Picked(candidates: seq<Candidate>, flags: seq<bool>, flag: bool): seq<Candidate>
    requires |flags| == |candidates|
  {
    if candidates == [] then []
    else
      Picked(candidates[..|candidates| - 1], flags[..|flags| - 1], flag)
      + if flags[|flags| - 1] == flag then [candidates[|candidates| - 1]] else []
  }

  // Each candidate in turn is taken exactly when it is required or fits next to what was taken before it.
  ghost predicate Greedy(sorted: seq<Candidate>, flags: seq<bool>, budget: U32) {
    && |flags| == |sorted|
    && forall i :: 0 <= i < |sorted| ==> flags[i] == Wanted(sorted[..i], flags[..i], sorted[i], budget)
  }

  predicate Wanted(before: seq<Candidate>, flags: seq<bool>, candidate: Candidate, budget: U32)
    requires |flags| == |before|
  {
    candidate.required || Min(Tokens(Picked(before, flags, true)) + candidate.tokenEstimate, U32_MAX) <= budget
  }

  lemma {:induction false} GreedyExtends(front: seq<Candidate>, last: Candidate, before: seq<bool>, budget: U32)
    requires Greedy(front, before, budget)
    ensures Greedy(front + [last], before + [Wanted(front, before, last, budget)], budget)
  {
    hide Wanted;
    var sorted, flags := front + [last], before + [Wanted(front, before, last, budget)];
    forall i | 0 <= i < |sorted| ensures flags[i] == Wanted(sorted[..i], flags[..i], sorted[i], budget) {
      if i < |front| {
        assert sorted[..i] == front[..i] && flags[..i] == before[..i];
      } else {
        assert sorted[..i] == front && flags[..i] == before;
      }
    }
  }

  lemma {:induction false} PickedOfPush(front: seq<Candidate>, last: Candidate, before: seq<bool>, taken: bool, flag: bool)
    requires |before| == |front|
    ensures Picked(front + [last], before + [taken], flag) == Picked(front, before, flag) + if taken == flag then [last] else []
  {
    assert (front + [last])[..|front|] == front && (before + [taken])[..|before|] == before;
  }

  lemma {:induction false} ChooseIsGreedy(sorted: seq<Candidate>, budget: U32) returns (flags: seq<bool>)
    ensures |flags| == |sorted| && Greedy(sorted, flags, budget)
    ensures Choose(sorted, budget).selected == Picked(sorted, flags, true)
    ensures Choose(sorted, budget).omitted == Picked(sorted, flags, false)
  {
    hide Greedy, Picked;
    if sorted == [] {
      flags := [];
      NothingIsGreedy(budget);
    } else {
      var front, last := sorted[..|sorted| - 1], sorted[|sorted| - 1];
      var before := ChooseIsGreedy(front, budget);
      ChoiceAddsUp(front, budget);
      var taken := Wanted(front, before, last, budget);
      assert taken == Takes(Choose(front, budget).used, last, budget);
      flags := before + [taken];
      assert sorted == front + [last];
      GreedyExtends(front, last, before, budget);
      PickedOfPush(front, last, before, taken, true);
      PickedOfPush(front, last, before, taken, false);
      hide Wanted, Takes;
    }
  }

  lemma {:induction false} NothingIsGreedy(budget: U32)
    ensures Greedy([], [], budget) && Picked([], [], true) == [] && Picked([], [], false) == []
  {
  }

  /** The result is the greedy choice along the ranks: nothing of a higher rank makes room for anything after it. */
  lemma {:induction false} BuiltIsGreedy(candidates: seq<Candidate>, budget: U32) returns (flags: seq<bool>)
    ensures Greedy(Sorted(candidates), flags, budget)
    ensures var built := Built(candidates, budget);
      && built.selected == Picked(Sorted(candidates), flags, true)
      && built.omittedIds == Ids(Picked(Sorted(candidates), flags, false))
  {
    flags := ChooseIsGreedy(Sorted(candidates), budget);
  }
}

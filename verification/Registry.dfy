// Session accounting: the registry of the runtime and the order in which start, monitor and failed
// starts call it (crates/gobrowse-sandboxd/src/runtime.rs).
module Registry {
  import opened Basics
  import opened Protocol

  datatype Limits = Limits(maxActive: nat, maxActivePerWorkspace: nat, maxRetained: nat)

  // `sessions` keeps of each session the workspace it belongs to.
  datatype Reg = Reg(
    sessions: map<TerminalId, WorkspaceId>,
    active: nat,
    activeByWorkspace: map<WorkspaceId, nat>,
    completed: seq<TerminalId>)

  const EMPTY := Reg(map[], 0, map[], [])

  function SaturatingSub(a: nat, b: nat): nat { if a < b then 0 else a - b }

  function CountOf(counters: map<WorkspaceId, nat>, w: WorkspaceId): nat { if w in counters then counters[w] else 0 }

  function Reserved(r: Reg, id: TerminalId, w: WorkspaceId, limits: Limits): (Reg, bool) {
    if r.active >= limits.maxActive || CountOf(r.activeByWorkspace, w) >= limits.maxActivePerWorkspace then (r, false)
    else (Reg(r.sessions[id := w], r.active + 1,
              r.activeByWorkspace[w := CountOf(r.activeByWorkspace, w) + 1], r.completed), true)
  }

  // One session less in the counters; a counter that reaches zero is removed.
  function Released(counters: map<WorkspaceId, nat>, w: WorkspaceId): map<WorkspaceId, nat> {
    if w !in counters then counters
    else if SaturatingSub(counters[w], 1) == 0 then counters - {w}
    else counters[w := SaturatingSub(counters[w], 1)]
  }

  function Excess(completed: seq<TerminalId>, limits: Limits): nat { SaturatingSub(|completed|, limits.maxRetained) }

  function Completed(r: Reg, id: TerminalId, limits: Limits): Reg {
    if id !in r.sessions then r
    else
      var completed := r.completed + [id];
      var k := Excess(completed, limits);
      Reg(r.sessions - Elements(completed[..k]), SaturatingSub(r.active, 1),
          Released(r.activeByWorkspace, r.sessions[id]), completed[k..])
  }

  function Without(ids: seq<TerminalId>, id: TerminalId): seq<TerminalId> {
    if ids == [] then []
    else (if ids[0] == id then [] else [ids[0]]) + Without(ids[1..], id)
  }

  function Removed(r: Reg, id: TerminalId): Reg {
    r.(sessions := r.sessions - {id}, completed := Without(r.completed, id))
  }

  function Cancelled(r: Reg, id: TerminalId): Reg {
    if id !in r.sessions then r
    else r.(sessions := r.sessions - {id}, active := SaturatingSub(r.active, 1),
            activeByWorkspace := Released(r.activeByWorkspace, r.sessions[id]))
  }

  lemma {:induction false} WithoutOfPush(ids: seq<TerminalId>, last: TerminalId, id: TerminalId)
    ensures Without(ids + [last], id) == Without(ids, id) + if last == id then [] else [last]
  {
    if ids != [] {
      WithoutOfPush(ids[1..], last, id);
      assert (ids + [last])[1..] == ids[1..] + [last];
    } else {
      assert ([last])[1..] == [];
    }
  }

  lemma {:induction false} WithoutKeepsOthers(ids: seq<TerminalId>, id: TerminalId)
    ensures forall other :: other in Without(ids, id) <==> other in ids && other != id
  {
    if ids != [] {
      var rest := Without(ids[1..], id);
      WithoutKeepsOthers(ids[1..], id);
      forall other ensures other in Without(ids, id) <==> other in ids && other != id {
        assert other in ids <==> other == ids[0] || other in ids[1..];
        assert other in [ids[0]] + rest <==> other == ids[0] || other in rest;
      }
    }
  }

  /** The queue without one id: every place of the id goes, and the others stay in order. */
  method RetainOthers(ids: seq<TerminalId>, id: TerminalId) returns (kept: seq<TerminalId>)
    ensures kept == Without(ids, id)
    ensures forall other :: other in kept <==> other in ids && other != id
    ensures NoDup(ids) ==> NoDup(kept)
  {
    kept := [];
    for i := 0 to |ids|
      invariant kept == Without(ids[..i], id)
    {
      assert ids[..i + 1] == ids[..i] + [ids[i]];
      WithoutOfPush(ids[..i], ids[i], id);
      if ids[i] != id {
        kept := kept + [ids[i]];
      }
    }
    assert ids[..|ids|] == ids;
    WithoutKeepsOthers(ids, id);
    if NoDup(ids) {
      WithoutIsFilter(ids, id);
    }
  }

  class SessionRegistry {
    var sessions: map<TerminalId, WorkspaceId>
    var active: nat
    var activeByWorkspace: map<WorkspaceId, nat>
    var completed: seq<TerminalId>

    ghost function View(): Reg reads this { Reg(sessions, active, activeByWorkspace, completed) }

    constructor ()
      ensures View() == EMPTY
    {
      sessions, active, activeByWorkspace, completed := map[], 0, map[], [];
    }

    method Reserve(id: TerminalId, workspace: WorkspaceId, limits: Limits) returns (ok: bool)
      modifies this
      ensures (View(), ok) == Reserved(old(View()), id, workspace, limits)
    {
      var workspaceActive := CountOf(activeByWorkspace, workspace);
      if active >= limits.maxActive || workspaceActive >= limits.maxActivePerWorkspace {
        return false;
      }
      active := active + 1;
      activeByWorkspace := activeByWorkspace[workspace := workspaceActive + 1];
      sessions := sessions[id := workspace];
      ok := true;
    }

    method Release(workspace: WorkspaceId)
      modifies this`active, this`activeByWorkspace
      ensures active == SaturatingSub(old(active), 1)
      ensures activeByWorkspace == Released(old(activeByWorkspace), workspace)
    {
      active := SaturatingSub(active, 1);
      if workspace in activeByWorkspace {
        activeByWorkspace := activeByWorkspace[workspace := SaturatingSub(activeByWorkspace[workspace], 1)];
        if activeByWorkspace[workspace] == 0 {
          activeByWorkspace := activeByWorkspace - {workspace};
        }
      }
    }

    method Complete(id: TerminalId, limits: Limits)
      modifies this
      ensures View() == Completed(old(View()), id, limits)
    {
      if id !in sessions {
        return;
      }
      Release(sessions[id]);
      completed := completed + [id];
      Expire(limits);
    }

    // Forgets the oldest completed sessions beyond the retention limit.
    method Expire(limits: Limits)
      modifies this`sessions, this`completed
      ensures var k := Excess(old(completed), limits);
        completed == old(completed)[k..] && sessions == old(sessions) - Elements(old(completed)[..k])
    {
      ghost var all: seq<TerminalId>, k: nat := completed, 0;
      while |completed| > limits.maxRetained
        invariant 0 <= k <= Excess(all, limits) && completed == all[k..]
        invariant sessions == old(sessions) - Elements(all[..k])
        decreases |completed|
      {
        var expired := completed[0];
        assert Elements(all[..k + 1]) == Elements(all[..k]) + {expired};
        completed, sessions, k := completed[1..], sessions - {expired}, k + 1;
      }
    }

    /** The session goes, and every place it has in the queue; the others stay, and keep their order. */
    method RemoveCompleted(id: TerminalId)
      modifies this`sessions, this`completed
      ensures View() == Removed(old(View()), id)
      ensures forall other :: other in sessions <==> other in old(sessions) && other != id
      ensures forall other :: other in sessions ==> sessions[other] == old(sessions)[other]
      ensures forall other :: other in completed <==> other in old(completed) && other != id
      ensures NoDup(old(completed)) ==> NoDup(completed)
    {
      sessions := sessions - {id};
      completed := RetainOthers(completed, id);
    }

    method CancelReservation(id: TerminalId)
      modifies this
      ensures View() == Cancelled(old(View()), id)
    {
      if id !in sessions {
        return;
      }
      var workspace := sessions[id];
      sessions := sessions - {id};
      Release(workspace);
    }
  }

  // ---------------------------------------------------------------------------------------------
  // Who calls the registry, and when. The journal grants each terminal id once, for good.

  datatype Stage =
    | Granted    // begin_start answered Execute
    | Refused    // the reservation failed
    | Starting   // reserved, PTY and process not yet there
    | Aborted    // the reservation was cancelled
    | Live       // the monitor runs
    | Finished   // the monitor has called complete
    | Terminal   // the lifecycle state is terminal
    | Lost       // the daemon restarted

  datatype Session = Session(workspace: WorkspaceId, stage: Stage)

  datatype State = State(reg: Reg, all: map<TerminalId, Session>)

  datatype Step =
    | Grant(id: TerminalId, workspace: WorkspaceId)
    | Reserve(id: TerminalId)
    | Cancel(id: TerminalId)
    | Launch(id: TerminalId)
    | Complete(id: TerminalId)
    | BecomeTerminal(id: TerminalId)
    | Remove(id: TerminalId)   // a failed start whose cleanup saw a terminal state
    | Restart

  function Staged(s: State, id: TerminalId, stage: Stage): map<TerminalId, Session>
    requires id in s.all
  {
    s.all[id := s.all[id].(stage := stage)]
  }

  predicate At(s: State, id: TerminalId, stage: Stage) { id in s.all && s.all[id].stage == stage }

  // A step whose guard does not hold changes nothing.
  function Next(s: State, step: Step, limits: Limits): State {
    match step
    case Grant(id, w) => if id in s.all then s else s.(all := s.all[id := Session(w, Granted)])
    case Reserve(id) =>
      if !At(s, id, Granted) then s
      else
        var (reg, ok) := Reserved(s.reg, id, s.all[id].workspace, limits);
        State(reg, Staged(s, id, if ok then Starting else Refused))
    case Cancel(id) => if !At(s, id, Starting) then s else State(Cancelled(s.reg, id), Staged(s, id, Aborted))
    case Launch(id) => if !At(s, id, Starting) then s else s.(all := Staged(s, id, Live))
    case Complete(id) => if !At(s, id, Live) then s else State(Completed(s.reg, id, limits), Staged(s, id, Finished))
    case BecomeTerminal(id) => if !At(s, id, Finished) then s else s.(all := Staged(s, id, Terminal))
    case Remove(id) => if !At(s, id, Terminal) then s else s.(reg := Removed(s.reg, id))
    case Restart => State(EMPTY, map id | id in s.all :: s.all[id].(stage := Lost))
  }

  function After(steps: seq<Step>, limits: Limits): State {
    if steps == [] then State(EMPTY, map[])
    else Next(After(steps[..|steps| - 1], limits), steps[|steps| - 1], limits)
  }

  predicate Unfinished(stage: Stage) { stage == Starting || stage == Live }

  // The reserved but unfinished sessions, of all workspaces and of one.
  function Running(all: map<TerminalId, Session>): set<TerminalId> { set id | id in all && Unfinished(all[id].stage) }

  function Share(all: map<TerminalId, Session>, w: WorkspaceId): set<TerminalId> {
    set id | id in all && Unfinished(all[id].stage) && all[id].workspace == w
  }

  ghost predicate CountersExact(reg: Reg, all: map<TerminalId, Session>) {
    && reg.active == |Running(all)|
    && (forall w :: CountOf(reg.activeByWorkspace, w) == |Share(all, w)|)
    && (forall w :: w in reg.activeByWorkspace ==> reg.activeByWorkspace[w] > 0)
  }

  ghost predicate WithinLimits(reg: Reg, limits: Limits) {
    && reg.active <= limits.maxActive
    && (forall w :: CountOf(reg.activeByWorkspace, w) <= limits.maxActivePerWorkspace)
    && |reg.completed| <= limits.maxRetained
  }

  ghost predicate SessionsExact(reg: Reg, all: map<TerminalId, Session>) {
    && NoDup(reg.completed)
    && (forall id :: id in reg.completed ==> id in all && all[id].stage in {Finished, Terminal})
    && (forall id :: id in reg.sessions <==> id in Running(all) || id in reg.completed)
    && (forall id :: id in reg.sessions ==> id in all && reg.sessions[id] == all[id].workspace)
  }

  ghost predicate Inv(s: State, limits: Limits) {
    CountersExact(s.reg, s.all) && WithinLimits(s.reg, limits) && SessionsExact(s.reg, s.all)
  }

  lemma {:induction false} RunningGrows(all: map<TerminalId, Session>, all': map<TerminalId, Session>, id: TerminalId)
    requires id in all' && Unfinished(all'[id].stage) && (id in all ==> !Unfinished(all[id].stage))
    requires all' == all[id := all'[id]]
    ensures |Running(all')| == |Running(all)| + 1
    ensures forall w :: |Share(all', w)| == |Share(all, w)| + if w == all'[id].workspace then 1 else 0
  {
    hide Share, Running;
    RunningIsOneMore(all, all', id);
    forall w ensures |Share(all', w)| == |Share(all, w)| + if w == all'[id].workspace then 1 else 0 {
      ShareIsOneMore(all, all', id, w);
    }
  }

  lemma {:induction false} RunningIsOneMore(all: map<TerminalId, Session>, all': map<TerminalId, Session>, id: TerminalId)
    requires id in all' && Unfinished(all'[id].stage) && (id in all ==> !Unfinished(all[id].stage))
    requires all' == all[id := all'[id]]
    ensures id !in Running(all) && Running(all') == Running(all) + {id}
  {
  }

  lemma {:induction false} ShareIsOneMore(
      all: map<TerminalId, Session>, all': map<TerminalId, Session>, id: TerminalId, w: WorkspaceId)
    requires id in all' && Unfinished(all'[id].stage) && (id in all ==> !Unfinished(all[id].stage))
    requires all' == all[id := all'[id]]
    ensures id !in Share(all, w)
    ensures Share(all', w) == if w == all'[id].workspace then Share(all, w) + {id} else Share(all, w)
  {
  }

  // A change of stage that finishes nothing and starts nothing.
  lemma {:induction false} RunningStays(all: map<TerminalId, Session>, all': map<TerminalId, Session>)
    requires forall id :: id in all' && Unfinished(all'[id].stage) <==> id in all && Unfinished(all[id].stage)
    requires forall id :: id in all && id in all' ==> all'[id].workspace == all[id].workspace
    ensures Running(all') == Running(all)
    ensures forall w :: Share(all', w) == Share(all, w)
  {
  }

  lemma {:induction false} ReserveKeepsInv(s: State, id: TerminalId, limits: Limits)
    requires Inv(s, limits) && At(s, id, Granted)
    ensures Inv(Next(s, Reserve(id), limits), limits)
  {
    var s' := Next(s, Reserve(id), limits);
    if At(s', id, Starting) {
      RunningGrows(s.all, s'.all, id);
      assert Running(s'.all) == Running(s.all) + {id};
    } else {
      RunningStays(s.all, s'.all);
    }
  }

  lemma {:induction false} ReleaseIsExact(s: State, s': State, id: TerminalId)
    requires CountersExact(s.reg, s.all) && id in s.all && Unfinished(s.all[id].stage)
    requires exists stage :: !Unfinished(stage) && s'.all == Staged(s, id, stage)
    requires s'.reg.active == SaturatingSub(s.reg.active, 1)
    requires s'.reg.activeByWorkspace == Released(s.reg.activeByWorkspace, s.all[id].workspace)
    ensures CountersExact(s'.reg, s'.all)
    ensures Running(s'.all) == Running(s.all) - {id}
    ensures s.reg.active > 0 && CountOf(s.reg.activeByWorkspace, s.all[id].workspace) > 0
    ensures forall w :: CountOf(s'.reg.activeByWorkspace, w) <= CountOf(s.reg.activeByWorkspace, w)
  {
    assert s.all == s'.all[id := s.all[id]];
    RunningGrows(s'.all, s.all, id);
  }

  lemma {:induction false} CancelKeepsInv(s: State, id: TerminalId, limits: Limits)
    requires Inv(s, limits) && At(s, id, Starting)
    ensures Inv(Next(s, Cancel(id), limits), limits)
  {
    var s' := Next(s, Cancel(id), limits);
    assert id in Running(s.all);
    ReleaseIsExact(s, s', id);
  }

  lemma {:induction false} CompleteKeepsInv(s: State, id: TerminalId, limits: Limits)
    requires Inv(s, limits) && At(s, id, Live)
    ensures Inv(Next(s, Complete(id), limits), limits)
  {
    var s' := Next(s, Complete(id), limits);
    assert id in Running(s.all) && id !in s.reg.completed;
    ReleaseIsExact(s, s', id);
    CompleteKeepsSessions(s, id, limits);
    hide CountersExact, SessionsExact, Running;
  }

  lemma {:induction false} CompleteKeepsSessions(s: State, id: TerminalId, limits: Limits)
    requires SessionsExact(s.reg, s.all) && At(s, id, Live)
    ensures var s' := Next(s, Complete(id), limits); SessionsExact(s'.reg, s'.all)
  {
    assert id in Running(s.all) && id !in s.reg.completed;
    assert Running(s.all[id := s.all[id].(stage := Finished)]) == Running(s.all) - {id};
    var completed := s.reg.completed + [id];
    KeepNewest(completed, Excess(completed, limits));
    hide Released;
  }

  lemma {:induction false} KeepNewest(ids: seq<TerminalId>, k: nat)
    requires NoDup(ids) && k <= |ids|
    ensures NoDup(ids[k..])
    ensures forall id :: id in ids[k..] <==> id in ids && id !in Elements(ids[..k])
  {
    assert ids == ids[..k] + ids[k..];
  }

  lemma {:induction false} WithoutIsFilter(ids: seq<TerminalId>, id: TerminalId)
    requires NoDup(ids)
    ensures NoDup(Without(ids, id)) && |Without(ids, id)| <= |ids|
  {
    if ids != [] {
      var rest := Without(ids[1..], id);
      WithoutIsFilter(ids[1..], id);
      WithoutKeepsOthers(ids[1..], id);
      assert Without(ids, id) == if ids[0] == id then rest else [ids[0]] + rest;
      assert ids[0] !in ids[1..];
    }
  }

  lemma {:induction false} RemoveKeepsInv(s: State, id: TerminalId, limits: Limits)
    requires Inv(s, limits)
    ensures Inv(Next(s, Remove(id), limits), limits)
  {
    if At(s, id, Terminal) {
      WithoutIsFilter(s.reg.completed, id);
      WithoutKeepsOthers(s.reg.completed, id);
    }
  }

  lemma {:induction false} StepKeepsInv(s: State, step: Step, limits: Limits)
    requires Inv(s, limits)
    ensures Inv(Next(s, step, limits), limits)
  {
    var s' := Next(s, step, limits);
    match step
    case Grant(id, w) => RunningStays(s.all, s'.all);
    case Reserve(id) => if At(s, id, Granted) { ReserveKeepsInv(s, id, limits); }
    case Cancel(id) => if At(s, id, Starting) { CancelKeepsInv(s, id, limits); }
    case Launch(id) => RunningStays(s.all, s'.all);
    case Complete(id) => if At(s, id, Live) { CompleteKeepsInv(s, id, limits); }
    case BecomeTerminal(id) => RunningStays(s.all, s'.all);
    case Remove(id) => RemoveKeepsInv(s, id, limits);
    case Restart =>
      assert Running(s'.all) == {};
      assert forall w :: Share(s'.all, w) == {};
  }

  /** After any interleaving of starts, failed starts, completions, removals and restarts: the counters are
      exactly the reserved but unfinished sessions, in all and per workspace, and no zero counter is kept;
      both limits hold; the retained ids are distinct and bounded; and the sessions known are exactly the
      unfinished and the retained ones. */
  lemma {:induction false} AccountingIsExact(steps: seq<Step>, limits: Limits)
    ensures var s := After(steps, limits);
      CountersExact(s.reg, s.all) && WithinLimits(s.reg, limits) && SessionsExact(s.reg, s.all)
  {
    if steps == [] {
      assert Running(map[]) == {};
      assert forall w :: Share(map[], w) == {};
    } else {
      AccountingIsExact(steps[..|steps| - 1], limits);
      StepKeepsInv(After(steps[..|steps| - 1], limits), steps[|steps| - 1], limits);
    }
  }

  /** No saturating subtraction ever saturates: whenever a session is cancelled or completed, the registry
      knows it under its own workspace and both counters that lose one are positive. */
  lemma {:induction false} NeverSaturates(steps: seq<Step>, limits: Limits, id: TerminalId)
    requires At(After(steps, limits), id, Starting) || At(After(steps, limits), id, Live)
    ensures var s := After(steps, limits);
      && id in s.reg.sessions && s.reg.sessions[id] == s.all[id].workspace
      && s.reg.active > 0
      && s.all[id].workspace in s.reg.activeByWorkspace && s.reg.activeByWorkspace[s.all[id].workspace] > 0
  {
    AccountingIsExact(steps, limits);
    var s := After(steps, limits);
    assert id in Running(s.all) && id in Share(s.all, s.all[id].workspace);
    assert CountOf(s.reg.activeByWorkspace, s.all[id].workspace) > 0;
  }

  /** A start gets its session exactly when fewer sessions than the limit run, in all and in its workspace; it then
      is one of them. */
  lemma {:induction false} ReservationIsExact(steps: seq<Step>, limits: Limits, id: TerminalId)
    requires At(After(steps, limits), id, Granted)
    ensures var s, s' := After(steps, limits), Next(After(steps, limits), Reserve(id), limits);
      var w := s.all[id].workspace;
      if |Running(s.all)| < limits.maxActive && |Share(s.all, w)| < limits.maxActivePerWorkspace
      then At(s', id, Starting) && id in s'.reg.sessions && s'.reg.sessions[id] == w && Running(s'.all) == Running(s.all) + {id}
      else At(s', id, Refused) && s'.reg == s.reg
  {
    AccountingIsExact(steps, limits);
    var s, s' := After(steps, limits), Next(After(steps, limits), Reserve(id), limits);
    assert CountOf(s.reg.activeByWorkspace, s.all[id].workspace) == |Share(s.all, s.all[id].workspace)|;
    hide After, WithinLimits, SessionsExact;
    if At(s', id, Starting) {
      RunningGrows(s.all, s'.all, id);
    }
  }

  /** A completed session stays known behind the ones completed before it, and only the oldest go, as many as are
      beyond the retention limit. */
  lemma {:induction false} NewestAreRetained(steps: seq<Step>, limits: Limits, id: TerminalId) returns (k: nat)
    requires At(After(steps, limits), id, Live)
    ensures var s, s' := After(steps, limits), Next(After(steps, limits), Complete(id), limits);
      && k <= |s.reg.completed| + 1 && s'.reg.completed == (s.reg.completed + [id])[k..]
      && |s'.reg.completed| == Min(|s.reg.completed| + 1, limits.maxRetained)
      && (limits.maxRetained > 0 ==> id in s'.reg.sessions)
      && forall other :: other in s'.reg.sessions <==> other in s.reg.sessions && other !in (s.reg.completed + [id])[..k]
  {
    AccountingIsExact(steps, limits);
    AccountingIsExact(steps + [Complete(id)], limits);
    assert (steps + [Complete(id)])[..|steps|] == steps;
    var s := After(steps, limits);
    assert id in Running(s.all);
    k := Excess(s.reg.completed + [id], limits);
    hide CountersExact, Released;
    if limits.maxRetained > 0 {
      assert (s.reg.completed + [id])[k..][|s.reg.completed| - k] == id;
    }
  }
}

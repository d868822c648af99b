// Pausing a workspace for a filesystem change, resuming it, and recovering after a crash: the pause
// protocol of the runtime, its durable recovery record and startup reconciliation
// (crates/gobrowse-sandboxd/src/runtime.rs, filesystem.rs and daemon.rs). Podman answers and record I/O are
// decided by the steps; a crash may fall between any two of them; one pause owner at a time is in flight
// per workspace, and a record write is one step.
module Recovery {
  import opened Basics
  import opened Protocol

  // A managed container carries its workspace in its labels.
  datatype Container = Container(workspace: WorkspaceId, terminal: TerminalId)

  datatype Record = Record(operation: nat, names: seq<Container>)

  // Why a resume runs: to recover before a new pause, to undo a failed pause, or to end a pause.
  datatype Goal = ForPause | AfterFailedPause | ToFinish

  datatype Phase =
    | Recovering
    | ResumeList(goal: Goal, ids: seq<Container>, operation: nat, attempt: nat)
    | ResumeItem(goal: Goal, ids: seq<Container>, operation: nat, attempt: nat,
                 listed: set<Container>, k: nat, unresolved: bool)
    | ResumeUnpause(goal: Goal, ids: seq<Container>, operation: nat, attempt: nat,
                    listed: set<Container>, k: nat, unresolved: bool)
    | ResumeCheck(goal: Goal, ids: seq<Container>, operation: nat, attempt: nat,
                  listed: set<Container>, k: nat, unresolved: bool, commanded: bool)
    | Sweeping
    | PauseList
    | PausePersist(ids: seq<Container>)
    | PauseItem(ids: seq<Container>, operation: nat, k: nat)
    | Paused(ids: seq<Container>, operation: nat)   // the filesystem operation runs

  // One entry of the listing of the recovery records.
  datatype Listed = Listed(workspace: WorkspaceId, operation: nat)

  // Startup reconciliation: the records are listed, the managed containers removed, the listed records cleared.
  datatype Boot = Down | Removing(listed: seq<Listed>) | Clearing(left: seq<Listed>) | Up

  datatype State = State(
    containers: map<Container, bool>,      // the managed containers; true when paused
    records: map<WorkspaceId, Record>,     // the durable recovery records
    owners: map<WorkspaceId, Phase>,       // the pause owners in flight
    boot: Boot)

  datatype Step =
    | Own(w: WorkspaceId)
    | Act(w: WorkspaceId, ok: bool, effect: bool, operation: nat, listing: seq<Container>)
    | Appear(c: Container)
    | Vanish(c: Container)
    | Crash
    | BootList(listed: seq<Listed>)
    | BootRemove(c: Container)
    | BootCheck
    | BootClear(ok: bool, effect: bool)
    | BootDone

  function Of(containers: map<Container, bool>, w: WorkspaceId): set<Container> {
    set c | c in containers && c.workspace == w
  }

  predicate IsPaused(containers: map<Container, bool>, c: Container) { c in containers && containers[c] }

  function Set(containers: map<Container, bool>, c: Container, paused: bool): map<Container, bool> {
    if c in containers then containers[c := paused] else containers
  }

  function To(s: State, w: WorkspaceId, phase: Phase): State { s.(owners := s.owners[w := phase]) }

  function Leave(s: State, w: WorkspaceId): State { s.(owners := s.owners - {w}) }

  function Next(s: State, step: Step): State {
    match step
    case Own(w) => if s.boot.Up? && w !in s.owners then To(s, w, Recovering) else s
    case Act(w, ok, effect, operation, listing) =>
      if w !in s.owners then s
      else
        var phase := s.owners[w];
        if phase.ResumeList? || phase.ResumeItem? || phase.ResumeUnpause? || phase.ResumeCheck?
        then ResumeStep(s, w, phase, ok, effect)
        else PauseStep(s, w, phase, ok, effect, operation, listing)
    case Appear(c) => if s.boot.Up? && c !in s.containers then s.(containers := s.containers[c := false]) else s
    case Vanish(c) => s.(containers := s.containers - {c})
    case Crash => s.(owners := map[], boot := Down)
    case BootList(listed) => if s.boot.Down? && Lists(listed, s.records) then s.(boot := Removing(listed)) else s
    case BootRemove(c) => if s.boot.Removing? then s.(containers := s.containers - {c}) else s
    case BootCheck =>
      if !s.boot.Removing? then s
      else s.(boot := if s.containers == map[] then Clearing(s.boot.listed) else Down)
    case BootClear(ok, effect) => if s.boot.Clearing? && s.boot.left != [] then ClearedFirst(s, ok, effect) else s
    case BootDone => if s.boot == Clearing([]) then s.(boot := Up) else s
  }

  // A listing names every record, with its operation, once.
  predicate Lists(listed: seq<Listed>, records: map<WorkspaceId, Record>) {
    && (forall i :: 0 <= i < |listed| ==>
      listed[i].workspace in records && records[listed[i].workspace].operation == listed[i].operation)
    && (forall i, j :: 0 <= i < j < |listed| ==> listed[i].workspace != listed[j].workspace)
    && (forall w :: w in records ==> exists i :: 0 <= i < |listed| && listed[i].workspace == w)
  }

  // RecoveryStore::clear of the first record left; any error ends the start. The unlink may take effect
  // although the clear reports an error.
  function ClearedFirst(s: State, ok: bool, effect: bool): State
    requires s.boot.Clearing? && s.boot.left != []
  {
    var first := s.boot.left[0];
    if first.workspace !in s.records || s.records[first.workspace].operation != first.operation then s.(boot := Down)
    else
      var cleared := if ok || effect then s.(records := s.records - {first.workspace}) else s;
      cleared.(boot := if ok then Clearing(s.boot.left[1..]) else Down)
  }

  // pause_workspace_owned, with ensure_workspace_recovered before it, and mutate_workspace after it.
  function PauseStep(s: State, w: WorkspaceId, phase: Phase, ok: bool, effect: bool,
                     operation: nat, listing: seq<Container>): (s': State)
    requires phase.Recovering? || phase.Sweeping? || phase.PauseList? || phase.PausePersist?
          || phase.PauseItem? || phase.Paused?
    ensures s'.boot == s.boot && s'.owners - {w} == s.owners - {w} && s'.records - {w} == s.records - {w}
    ensures s'.containers.Keys == s.containers.Keys
  {
    match phase
    case Recovering =>
      if !ok then Leave(s, w)
      else if w in s.records then To(s, w, ResumeList(ForPause, s.records[w].names, s.records[w].operation, 0))
      else To(s, w, Sweeping)
    case Sweeping => if ok then To(s, w, PauseList) else Leave(s, w)
    case PauseList =>
      if !ok || Elements(listing) != Of(s.containers, w) || listing == [] then Leave(s, w)
      else To(s, w, PausePersist(listing))
    case PausePersist(ids) =>
      var t := if ok || effect then s.(records := s.records[w := Record(operation, ids)]) else s;
      if ok then To(t, w, PauseItem(ids, operation, 0)) else Leave(t, w)
    case PauseItem(ids, op, k) =>
      if k >= |ids| then To(s, w, Paused(ids, op))
      else if ok && ids[k] in s.containers then
        To(s.(containers := Set(s.containers, ids[k], true)), w, PauseItem(ids, op, k + 1))
      else
        // Counted as failed. `effect` says that the container is paused all the same.
        var t := if effect then s.(containers := Set(s.containers, ids[k], true)) else s;
        // Resuming nothing succeeds at once and leaves the record.
        if k == 0 then Leave(t, w) else To(t, w, ResumeList(AfterFailedPause, ids[..k], op, 0))
    case Paused(ids, op) =>
      // A containment failure drops the pause without resuming it.
      if ok then To(s, w, ResumeList(ToFinish, ids, op, 0)) else Leave(s, w)
  }

  // resume_workspace_owned
  function ResumeStep(s: State, w: WorkspaceId, phase: Phase, ok: bool, effect: bool): (s': State)
    requires phase.ResumeList? || phase.ResumeItem? || phase.ResumeUnpause? || phase.ResumeCheck?
    ensures s'.boot == s.boot && s'.owners - {w} == s.owners - {w} && s'.records - {w} == s.records - {w}
    ensures s'.containers.Keys == s.containers.Keys
  {
    match phase
    case ResumeList(goal, ids, op, attempt) =>
      if ids == [] then Resumed(s, w, goal)
      else if ok then To(s, w, ResumeItem(goal, ids, op, attempt, Of(s.containers, w), 0, false))
      else Leave(s, w)
    case ResumeItem(goal, ids, op, attempt, listed, k, unresolved) =>
      if k >= |ids| then ResumeDecide(s, w, goal, ids, op, attempt, unresolved, ok, effect)
      else if ids[k] !in listed then To(s, w, ResumeItem(goal, ids, op, attempt, listed, k + 1, unresolved))
      else if !ok || ids[k] !in s.containers then
        To(s, w, ResumeItem(goal, ids, op, attempt, listed, k + 1, true))
      else if s.containers[ids[k]] then
        To(s, w, ResumeUnpause(goal, ids, op, attempt, listed, k, unresolved))
      else To(s, w, ResumeItem(goal, ids, op, attempt, listed, k + 1, unresolved))
    case ResumeUnpause(goal, ids, op, attempt, listed, k, unresolved) =>
      if k >= |ids| then s
      else
        var t := if effect then s.(containers := Set(s.containers, ids[k], false)) else s;
        To(t, w, ResumeCheck(goal, ids, op, attempt, listed, k, unresolved, ok))
    case ResumeCheck(goal, ids, op, attempt, listed, k, unresolved, commanded) =>
      if k >= |ids| then s
      else
        var resolved := commanded && ok && ids[k] in s.containers && !s.containers[ids[k]];
        To(s, w, ResumeItem(goal, ids, op, attempt, listed, k + 1, unresolved || !resolved))
  }

  function ResumeDecide(s: State, w: WorkspaceId, goal: Goal, ids: seq<Container>, op: nat, attempt: nat,
                        unresolved: bool, ok: bool, effect: bool): State
  {
    if unresolved then
      if attempt < 2 then To(s, w, ResumeList(goal, ids, op, attempt + 1)) else Leave(s, w)
    else if w !in s.records || s.records[w].operation != op then Leave(s, w)
    else
      // The unlink may take effect although the clear reports an error.
      var s' := if ok || effect then s.(records := s.records - {w}) else s;
      if ok then Resumed(s', w, goal) else Leave(s', w)
  }

  function Resumed(s: State, w: WorkspaceId, goal: Goal): State {
    if goal == ForPause then To(s, w, Sweeping) else Leave(s, w)
  }

  function After(steps: seq<Step>): State {
    if steps == [] then State(map[], map[], map[], Up)
    else Next(After(steps[..|steps| - 1]), steps[|steps| - 1])
  }

  // A pause that failed although it took effect, after other containers of the same call were paused.
  predicate Leaky(s: State, step: Step) {
    && step.Act? && step.w in s.owners && s.owners[step.w].PauseItem?
    && var PauseItem(ids, _, k) := s.owners[step.w];
       0 < k < |ids| && !step.ok && step.effect && ids[k] in s.containers && ids[k] !in ids[..k]
  }

  ghost predicate NeverLeaky(steps: seq<Step>) {
    forall m :: 0 <= m < |steps| ==> !Leaky(After(steps[..m]), steps[m])
  }

  // ---------------------------------------------------------------------------------------------
  // What every step keeps.

  predicate PausedIn(containers: map<Container, bool>, w: WorkspaceId, c: Container) {
    IsPaused(containers, c) && c.workspace == w
  }

  // Every paused container is named by the stored record of its workspace.
  ghost predicate Named(containers: map<Container, bool>, records: map<WorkspaceId, Record>) {
    forall c :: IsPaused(containers, c) ==> c.workspace in records && c in records[c.workspace].names
  }

  // All paused containers of the workspace are among `ids`.
  ghost predicate PausedWithin(containers: map<Container, bool>, w: WorkspaceId, ids: seq<Container>) {
    forall c :: PausedIn(containers, w, c) ==> c in ids
  }

  // One attempt to resume: the first k of `ids` are running again unless something is unresolved.
  ghost predicate Resuming(containers: map<Container, bool>, w: WorkspaceId, ids: seq<Container>,
                           listed: set<Container>, k: nat, unresolved: bool)
  {
    && (forall c :: PausedIn(containers, w, c) ==> c in ids && c in listed)
    && (!unresolved ==> forall j :: 0 <= j < k && j < |ids| ==> !PausedIn(containers, w, ids[j]))
  }

  ghost predicate AllOf(ids: seq<Container>, w: WorkspaceId) { forall c :: c in ids ==> c.workspace == w }

  ghost predicate PhaseOk(containers: map<Container, bool>, records: map<WorkspaceId, Record>, w: WorkspaceId, phase: Phase) {
    match phase
    case Recovering => true
    case ResumeList(_, ids, _, _) => PausedWithin(containers, w, ids)
    case ResumeItem(_, ids, _, _, listed, k, unresolved) => Resuming(containers, w, ids, listed, k, unresolved)
    case ResumeUnpause(_, ids, _, _, listed, k, unresolved) => Resuming(containers, w, ids, listed, k, unresolved)
    case ResumeCheck(_, ids, _, _, listed, k, unresolved, _) => Resuming(containers, w, ids, listed, k, unresolved)
    case Sweeping => PausedWithin(containers, w, [])
    case PauseList => PausedWithin(containers, w, [])
    case PausePersist(ids) => PausedWithin(containers, w, []) && AllOf(ids, w)
    case PauseItem(ids, op, k) =>
      && k <= |ids| && AllOf(ids, w) && PausedWithin(containers, w, ids[..k])
      && w in records && records[w] == Record(op, ids)
    case Paused(ids, _) => PausedWithin(containers, w, ids)
  }

  ghost predicate PhasesOk(s: State) {
    forall w :: w in s.owners ==> PhaseOk(s.containers, s.records, w, s.owners[w])
  }

  ghost predicate BootOk(s: State) {
    && (!s.boot.Up? ==> s.owners == map[])
    && (s.boot.Removing? ==> Lists(s.boot.listed, s.records))
    && (s.boot.Clearing? ==> s.containers == map[] && Lists(s.boot.left, s.records))
  }

  ghost predicate Inv(s: State) { Named(s.containers, s.records) && PhasesOk(s) && BootOk(s) }

  // Outside workspace w nothing is newly paused and no record or owner changes.
  ghost predicate OthersFramed(s: State, s': State, w: WorkspaceId) {
    && (forall c :: IsPaused(s'.containers, c) && c.workspace != w ==> IsPaused(s.containers, c))
    && s'.records - {w} == s.records - {w}
    && s'.owners - {w} == s.owners - {w}
    && s'.boot == s.boot
  }

  ghost predicate OwnStepOk(s: State, s': State, w: WorkspaceId) {
    && OthersFramed(s, s', w)
    && (forall c :: PausedIn(s'.containers, w, c) ==> w in s'.records && c in s'.records[w].names)
    && (w in s'.owners ==> PhaseOk(s'.containers, s'.records, w, s'.owners[w]))
  }

  lemma {:induction false} PauseItemIsOk(s: State, w: WorkspaceId, ok: bool, effect: bool, op: nat, listing: seq<Container>)
    requires Inv(s) && w in s.owners && s.owners[w].PauseItem? && !Leaky(s, Act(w, ok, effect, op, listing))
    ensures OwnStepOk(s, PauseStep(s, w, s.owners[w], ok, effect, op, listing), w)
  {
    var PauseItem(ids, _, k) := s.owners[w];
    assert PhaseOk(s.containers, s.records, w, s.owners[w]);
    if k < |ids| {
      assert ids[..k + 1] == ids[..k] + [ids[k]];
      assert ids[k] in ids;
    } else {
      assert ids[..k] == ids;
    }
  }

  lemma {:induction false} PauseStepIsOk(s: State, w: WorkspaceId, ok: bool, effect: bool, op: nat, listing: seq<Container>)
    requires Inv(s) && w in s.owners && !Leaky(s, Act(w, ok, effect, op, listing))
    requires var p := s.owners[w]; !p.ResumeList? && !p.ResumeItem? && !p.ResumeUnpause? && !p.ResumeCheck?
    ensures OwnStepOk(s, PauseStep(s, w, s.owners[w], ok, effect, op, listing), w)
  {
    var phase := s.owners[w];
    if phase.PauseItem? {
      PauseItemIsOk(s, w, ok, effect, op, listing);
    } else {
      assert PhaseOk(s.containers, s.records, w, phase);
      assert phase.PauseList? ==> forall c :: c in listing ==> c in Elements(listing);
    }
  }

  lemma {:induction false} ResumeListIsOk(s: State, w: WorkspaceId, ok: bool, effect: bool)
    requires Named(s.containers, s.records) && w in s.owners && s.owners[w].ResumeList?
    requires PhaseOk(s.containers, s.records, w, s.owners[w])
    ensures OwnStepOk(s, ResumeStep(s, w, s.owners[w], ok, effect), w)
  {
  }

  lemma {:induction false} ResumeDecideIsOk(s: State, w: WorkspaceId, ok: bool, effect: bool)
    requires Named(s.containers, s.records) && w in s.owners && s.owners[w].ResumeItem? && s.owners[w].k >= |s.owners[w].ids|
    requires PhaseOk(s.containers, s.records, w, s.owners[w])
    ensures OwnStepOk(s, ResumeStep(s, w, s.owners[w], ok, effect), w)
  {
    var phase := s.owners[w];
    assert !phase.unresolved ==> forall c :: c in phase.ids ==> !PausedIn(s.containers, w, c);
  }

  lemma {:induction false} ResumeItemIsOk(s: State, w: WorkspaceId, ok: bool, effect: bool)
    requires Named(s.containers, s.records) && w in s.owners && s.owners[w].ResumeItem? && s.owners[w].k < |s.owners[w].ids|
    requires PhaseOk(s.containers, s.records, w, s.owners[w])
    ensures OwnStepOk(s, ResumeStep(s, w, s.owners[w], ok, effect), w)
  {
    var phase := s.owners[w];
    var s' := ResumeStep(s, w, phase, ok, effect);
    assert s' == To(s, w, s'.owners[w]);
    assert PhaseOk(s.containers, s.records, w, s'.owners[w]) by {
      ItemIsResuming(s.containers, w, phase.ids, phase.listed, phase.k, phase.unresolved);
    }
    hide ResumeStep, PhaseOk;
  }

  // A container that is not listed, or not paused, needs no resuming.
  lemma {:induction false} ItemIsResuming(containers: map<Container, bool>, w: WorkspaceId, ids: seq<Container>,
                                          listed: set<Container>, k: nat, unresolved: bool)
    requires Resuming(containers, w, ids, listed, k, unresolved) && k < |ids|
    ensures !PausedIn(containers, w, ids[k]) ==> Resuming(containers, w, ids, listed, k + 1, unresolved)
    ensures Resuming(containers, w, ids, listed, k + 1, true)
    ensures ids[k] !in listed ==> !PausedIn(containers, w, ids[k])
  {
  }

  lemma {:induction false} UnpauseIsOk(s: State, w: WorkspaceId, ok: bool, effect: bool)
    requires Named(s.containers, s.records) && w in s.owners && (s.owners[w].ResumeUnpause? || s.owners[w].ResumeCheck?)
    requires PhaseOk(s.containers, s.records, w, s.owners[w])
    ensures OwnStepOk(s, ResumeStep(s, w, s.owners[w], ok, effect), w)
  {
    var s' := ResumeStep(s, w, s.owners[w], ok, effect);
    assert forall c :: IsPaused(s'.containers, c) ==> IsPaused(s.containers, c);
  }

  lemma {:induction false} ResumeStepIsOk(s: State, w: WorkspaceId, ok: bool, effect: bool)
    requires Inv(s) && w in s.owners
    requires var p := s.owners[w]; p.ResumeList? || p.ResumeItem? || p.ResumeUnpause? || p.ResumeCheck?
    ensures OwnStepOk(s, ResumeStep(s, w, s.owners[w], ok, effect), w)
  {
    hide ResumeStep, PhaseOk, Named, OwnStepOk;
    var phase := s.owners[w];
    if phase.ResumeList? {
      ResumeListIsOk(s, w, ok, effect);
    } else if phase.ResumeItem? {
      if phase.k < |phase.ids| {
        ResumeItemIsOk(s, w, ok, effect);
      } else {
        ResumeDecideIsOk(s, w, ok, effect);
      }
    } else {
      UnpauseIsOk(s, w, ok, effect);
    }
  }

  lemma {:induction false} OthersStayOk(s: State, s': State, w: WorkspaceId, v: WorkspaceId)
    requires v != w && v in s'.owners && OthersFramed(s, s', w)
    requires v in s.owners && PhaseOk(s.containers, s.records, v, s.owners[v])
    ensures s'.owners[v] == s.owners[v] && PhaseOk(s'.containers, s'.records, v, s'.owners[v])
  {
    assert v in s'.owners - {w} && v in s.owners - {w};
    assert forall c :: PausedIn(s'.containers, v, c) ==> PausedIn(s.containers, v, c);
    assert v in s.records ==> v in s.records - {w} && v in s'.records - {w};
  }

  lemma {:induction false} OwnStepKeepsInv(s: State, s': State, w: WorkspaceId)
    requires Inv(s) && w in s.owners && OwnStepOk(s, s', w)
    ensures Inv(s')
  {
    assert s.boot.Up?;
    forall v | v in s'.owners ensures PhaseOk(s'.containers, s'.records, v, s'.owners[v]) {
      if v != w {
        assert v in s'.owners - {w};
        OthersStayOk(s, s', w, v);
      }
    }
    forall c | IsPaused(s'.containers, c)
      ensures c.workspace in s'.records && c in s'.records[c.workspace].names
    {
      if c.workspace != w {
        assert c.workspace in s.records - {w};
      } else {
        assert PausedIn(s'.containers, w, c);
      }
    }
  }

  lemma {:induction false} RestIsListed(listed: seq<Listed>, records: map<WorkspaceId, Record>)
    requires listed != [] && Lists(listed, records)
    ensures Lists(listed[1..], records - {listed[0].workspace})
  {
    var rest, left := listed[1..], records - {listed[0].workspace};
    forall i | 0 <= i < |rest|
      ensures rest[i].workspace in left && left[rest[i].workspace].operation == rest[i].operation
    {
      assert rest[i] == listed[i + 1];
    }
    forall w | w in left ensures exists i :: 0 <= i < |rest| && rest[i].workspace == w {
      var i :| 0 <= i < |listed| && listed[i].workspace == w;
      assert rest[i - 1].workspace == w;
    }
  }

  // Steps of the world and of startup, which pause nothing.
  lemma {:induction false} WorldStepKeepsBoot(s: State, step: Step)
    requires BootOk(s) && !step.Act?
    ensures BootOk(Next(s, step))
  {
    if step.BootClear? && s.boot.Clearing? && s.boot.left != [] {
      RestIsListed(s.boot.left, s.records);
    }
    hide Lists;
  }

  lemma {:induction false} WorldStepKeepsInv(s: State, step: Step)
    requires Inv(s) && !step.Act?
    ensures Inv(Next(s, step))
  {
    WorldStepKeepsBoot(s, step);
    hide Lists;
    var s' := Next(s, step);
    assert forall c :: IsPaused(s'.containers, c) ==> IsPaused(s.containers, c);
    assert forall w, c :: PausedIn(s'.containers, w, c) ==> PausedIn(s.containers, w, c);
  }

  lemma {:induction false} StepKeepsInv(s: State, step: Step)
    requires Inv(s) && !Leaky(s, step)
    ensures Inv(Next(s, step))
  {
    if step.Act? {
      if step.w in s.owners {
        hide Inv, Leaky, PauseStep, ResumeStep, OwnStepOk;
        var w, phase := step.w, s.owners[step.w];
        if phase.ResumeList? || phase.ResumeItem? || phase.ResumeUnpause? || phase.ResumeCheck? {
          ResumeStepIsOk(s, w, step.ok, step.effect);
        } else {
          PauseStepIsOk(s, w, step.ok, step.effect, step.operation, step.listing);
        }
        OwnStepKeepsInv(s, Next(s, step), w);
      }
    } else {
      WorldStepKeepsInv(s, step);
    }
  }

  lemma {:induction false} InvAlways(steps: seq<Step>)
    requires NeverLeaky(steps)
    ensures Inv(After(steps))
  {
    hide Leaky;
    if steps != [] {
      var past := steps[..|steps| - 1];
      forall m | 0 <= m < |past| ensures !Leaky(After(past[..m]), past[m]) {
        assert past[..m] == steps[..m] && past[m] == steps[m];
      }
      InvAlways(past);
      assert !Leaky(After(steps[..|steps| - 1]), steps[|steps| - 1]);
      StepKeepsInv(After(past), steps[|steps| - 1]);
    }
  }

  // ---------------------------------------------------------------------------------------------
  // What the protocol guarantees.

  /** At every moment, hence at every crash, every paused container is named by the durable record of its
      workspace, whatever Podman and the disk did, as long as no pause is leaky. */
  lemma {:induction false} EveryPausedContainerIsNamed(steps: seq<Step>, c: Container)
    requires NeverLeaky(steps) && IsPaused(After(steps).containers, c)
    ensures c.workspace in After(steps).records && c in After(steps).records[c.workspace].names
  {
    hide NeverLeaky, PhasesOk;
    InvAlways(steps);
  }

  /** A record that is gone leaves no paused container of its workspace behind. */
  lemma {:induction false} ClearedMeansRunning(steps: seq<Step>, w: WorkspaceId, c: Container)
    requires NeverLeaky(steps) && w !in After(steps).records && c.workspace == w
    ensures !IsPaused(After(steps).containers, c)
  {
    hide NeverLeaky, PhasesOk;
    InvAlways(steps);
  }

  lemma {:induction false} BootOkAlways(steps: seq<Step>)
    ensures BootOk(After(steps))
  {
    hide Lists;
    if steps != [] {
      BootOkAlways(steps[..|steps| - 1]);
      var s, step := After(steps[..|steps| - 1]), steps[|steps| - 1];
      if !step.Act? {
        WorldStepKeepsBoot(s, step);
      } else if step.w in s.owners {
        assert s.boot.Up?;
        ActKeepsBoot(s, step);
      }
    }
  }

  lemma {:induction false} ActKeepsBoot(s: State, step: Step)
    requires step.Act?
    ensures Next(s, step).boot == s.boot
  {
    hide PauseStep, ResumeStep;
  }

  /** Startup reconciliation, when it lets the daemon serve, leaves no managed container and no record: what was
      listed at the start is all there is to clear. */
  lemma {:induction false} ReconciliationEndsClean(steps: seq<Step>, step: Step)
    requires !After(steps).boot.Up? && Next(After(steps), step).boot.Up?
    ensures Next(After(steps), step).containers == map[] && Next(After(steps), step).records == map[]
  {
    BootOkAlways(steps);
    if step.Act? {
      ActKeepsBoot(After(steps), step);
    }
    assert After(steps).boot == Clearing([]);
    assert After(steps).records == map[];
  }

  /** While records are cleared, only a failing disk ends the start: the next record is there and unchanged. */
  lemma {:induction false} ClearingMeetsNoConflict(steps: seq<Step>, effect: bool)
    requires var boot := After(steps).boot; boot.Clearing? && boot.left != []
    ensures var s, s' := After(steps), Next(After(steps), BootClear(true, effect));
      s'.boot == Clearing(s.boot.left[1..]) && s'.records == s.records - {s.boot.left[0].workspace}
  {
    BootOkAlways(steps);
  }

  lemma {:induction false} AfterOneMore(steps: seq<Step>, step: Step)
    ensures After(steps + [step]) == Next(After(steps), step)
  {
    assert (steps + [step])[..|steps|] == steps;
  }

  lemma {:induction false} AfterThreeMore(steps: seq<Step>, a: Step, b: Step, c: Step)
    ensures After(steps + [a, b, c]) == Next(Next(Next(After(steps), a), b), c)
  {
    assert steps + [a, b, c] == steps + [a] + [b] + [c];
    AfterOneMore(steps + [a] + [b], c);
    AfterOneMore(steps + [a], b);
    AfterOneMore(steps, a);
  }

  // ---------------------------------------------------------------------------------------------
  // The condition is exact: what follows a leaky pause can forget a paused container.

  // A paused container that no record of its workspace names.
  ghost predicate Forgets(s: State) {
    exists c :: IsPaused(s.containers, c) && !(c.workspace in s.records && c in s.records[c.workspace].names)
  }

  function Then(s: State, more: seq<Step>): State
    decreases |more|
  {
    if more == [] then s else Then(Next(s, more[0]), more[1..])
  }

  // No step of `more`, from s on, is leaky.
  ghost predicate Tight(s: State, more: seq<Step>)
    decreases |more|
  {
    more == [] || (!Leaky(s, more[0]) && Tight(Next(s, more[0]), more[1..]))
  }

  lemma {:induction false} AfterMore(steps: seq<Step>, more: seq<Step>)
    ensures After(steps + more) == Then(After(steps), more)
    decreases |more|
  {
    hide Next;
    if more == [] {
      assert steps + more == steps;
    } else {
      assert steps + more == (steps + [more[0]]) + more[1..];
      AfterMore(steps + [more[0]], more[1..]);
      AfterOneMore(steps, more[0]);
    }
  }

  lemma {:induction false} OneMoreNeverLeaky(steps: seq<Step>, step: Step)
    requires NeverLeaky(steps) && !Leaky(After(steps), step)
    ensures NeverLeaky(steps + [step])
  {
    hide Next, Leaky, After;
    var longer := steps + [step];
    forall m | 0 <= m < |longer| ensures !Leaky(After(longer[..m]), longer[m]) {
      if m < |steps| {
        assert longer[..m] == steps[..m] && longer[m] == steps[m];
      } else {
        assert longer[..m] == steps;
      }
    }
  }

  lemma {:induction false} TightIsNeverLeaky(steps: seq<Step>, more: seq<Step>)
    requires NeverLeaky(steps) && Tight(After(steps), more)
    ensures NeverLeaky(steps + more)
    decreases |more|
  {
    hide Next, Leaky, After, NeverLeaky;
    if more == [] {
      assert steps + more == steps;
    } else {
      OneMoreNeverLeaky(steps, more[0]);
      AfterOneMore(steps, more[0]);
      TightIsNeverLeaky(steps + [more[0]], more[1..]);
      assert steps + more == (steps + [more[0]]) + more[1..];
    }
  }

  // A step of workspace w in which everything works.
  function Work(w: WorkspaceId): Step { Act(w, true, true, 0, []) }

  // The pause is being undone, the items before k are done, and the container that leaked is none of them.
  ghost predicate Undoing(s: State, w: WorkspaceId, c: Container) {
    && w in s.owners && s.owners[w].ResumeItem?
    && var ResumeItem(goal, ids, op, _, listed, k, unresolved) := s.owners[w];
      && goal == AfterFailedPause && !unresolved && k <= |ids| && c !in ids && PausedIn(s.containers, w, c)
      && w in s.records && s.records[w].operation == op
      && (forall id :: id in listed ==> id in s.containers)
  }

  function ItemsLeft(s: State, w: WorkspaceId): nat
    requires w in s.owners && s.owners[w].ResumeItem? && s.owners[w].k <= |s.owners[w].ids|
  {
    |s.owners[w].ids| - s.owners[w].k
  }

  // One item is dealt with, in one step or in three.
  lemma {:induction false} ItemIsUndone(s: State, w: WorkspaceId, c: Container) returns (more: seq<Step>)
    requires Undoing(s, w, c) && ItemsLeft(s, w) > 0
    ensures more == [Work(w)] || more == [Work(w), Work(w), Work(w)]
    ensures Tight(s, more) && Undoing(Then(s, more), w, c) && ItemsLeft(Then(s, more), w) == ItemsLeft(s, w) - 1
  {
    var ResumeItem(goal, ids, op, attempt, listed, k, unresolved) := s.owners[w];
    var s1 := Next(s, Work(w));
    if ids[k] in listed && s.containers[ids[k]] {
      more := [Work(w), Work(w), Work(w)];
      assert s1 == To(s, w, ResumeUnpause(goal, ids, op, attempt, listed, k, unresolved));
      var s2 := Next(s1, Work(w));
      var s3 := Next(s2, Work(w));
      assert s2.containers == s.containers[ids[k] := false];
      assert s3 == To(s2, w, ResumeItem(goal, ids, op, attempt, listed, k + 1, unresolved));
      ThenThree(s, Work(w));
    } else {
      more := [Work(w)];
      assert s1 == To(s, w, ResumeItem(goal, ids, op, attempt, listed, k + 1, unresolved));
      assert more[1..] == [] && Then(s, more) == Then(s1, []);
    }
  }

  lemma {:induction false} ThenThree(s: State, step: Step)
    ensures Then(s, [step, step, step]) == Next(Next(Next(s, step), step), step)
    ensures !Leaky(s, step) && !Leaky(Next(s, step), step) && !Leaky(Next(Next(s, step), step), step) ==>
      Tight(s, [step, step, step])
  {
    hide Next, Leaky;
    assert [step, step, step][1..] == [step, step] && [step, step][1..] == [step] && [step][1..] == [];
    var s1 := Next(s, step);
    var s2 := Next(s1, step);
    assert Then(s2, [step]) == Next(s2, step) && Then(s1, [step, step]) == Then(s2, [step]);
    assert Tight(s2, [step]) <==> !Leaky(s2, step);
    assert Tight(s1, [step, step]) <==> !Leaky(s1, step) && Tight(s2, [step]);
  }

  lemma {:induction false} ThenJoin(s: State, a: seq<Step>, b: seq<Step>)
    ensures Then(s, a + b) == Then(Then(s, a), b)
    ensures Tight(s, a) && Tight(Then(s, a), b) ==> Tight(s, a + b)
    decreases |a|
  {
    hide Next, Leaky;
    if a == [] {
      assert a + b == b;
    } else {
      ThenJoin(Next(s, a[0]), a[1..], b);
      assert (a + b)[1..] == a[1..] + b;
    }
  }

  lemma {:induction false} UndoingForgets(s: State, w: WorkspaceId, c: Container) returns (more: seq<Step>)
    requires Undoing(s, w, c)
    ensures Tight(s, more) && Forgets(Then(s, more))
    decreases ItemsLeft(s, w)
  {
    if ItemsLeft(s, w) == 0 {
      more := [Work(w)];
      var s' := Next(s, Work(w));
      assert more[1..] == [] && Then(s, more) == Then(s', []);
      assert IsPaused(s'.containers, c) && c.workspace !in s'.records;
    } else {
      var first := ItemIsUndone(s, w, c);
      var rest := UndoingForgets(Then(s, first), w, c);
      ThenJoin(s, first, rest);
      more := first + rest;
    }
  }

  lemma {:induction false} LeakForgets(s: State, step: Step) returns (more: seq<Step>)
    requires Inv(s) && Leaky(s, step)
    ensures Tight(Next(s, step), more) && Forgets(Then(Next(s, step), more))
  {
    var w := step.w;
    var PauseItem(ids, op, k) := s.owners[w];
    assert PhaseOk(s.containers, s.records, w, s.owners[w]);
    assert ids[k] in ids;
    var leaked := Next(s, step);
    assert leaked.owners[w] == ResumeList(AfterFailedPause, ids[..k], op, 0);
    var listed := Next(leaked, Work(w));
    assert listed == To(leaked, w, ResumeItem(AfterFailedPause, ids[..k], op, 0, Of(leaked.containers, w), 0, false));
    var rest := UndoingForgets(listed, w, ids[k]);
    more := [Work(w)] + rest;
    assert more[0] == Work(w) && more[1..] == rest;
  }

  lemma {:induction false} NeverLeakyNeverForgets(steps: seq<Step>)
    requires NeverLeaky(steps)
    ensures !Forgets(After(steps))
  {
    hide NeverLeaky, PhasesOk;
    InvAlways(steps);
  }

  lemma {:induction false} FirstLeak(steps: seq<Step>) returns (m: nat)
    requires !NeverLeaky(steps)
    ensures m < |steps| && Leaky(After(steps[..m]), steps[m]) && NeverLeaky(steps[..m])
  {
    hide Leaky, Next;
    var past := steps[..|steps| - 1];
    forall n | 0 <= n < |past| ensures past[..n] == steps[..n] && past[n] == steps[n] {
    }
    if NeverLeaky(past) {
      m := |past|;
    } else {
      m := FirstLeak(past);
      assert past[..m] == steps[..m];
    }
  }

  // Nothing is forgotten now or by anything leak-free that may follow.
  ghost predicate SafeToContinue(s: State) { forall more :: Tight(s, more) ==> !Forgets(Then(s, more)) }

  /** A run never leaks exactly when, after each of its steps, no continuation without a leak forgets a paused
      container. */
  lemma {:induction false} NeverLeakyIsExact(steps: seq<Step>)
    ensures NeverLeaky(steps) <==> forall n :: 0 <= n <= |steps| ==> SafeToContinue(After(steps[..n]))
  {
    hide Leaky, Next, Forgets, Tight;
    if NeverLeaky(steps) {
      forall n, more | 0 <= n <= |steps| && Tight(After(steps[..n]), more) ensures !Forgets(Then(After(steps[..n]), more)) {
        PrefixNeverLeaky(steps, n);
        TightIsNeverLeaky(steps[..n], more);
        NeverLeakyNeverForgets(steps[..n] + more);
        AfterMore(steps[..n], more);
      }
    } else {
      var m := FirstLeak(steps);
      InvAlways(steps[..m]);
      var more := LeakForgets(After(steps[..m]), steps[m]);
      assert steps[..m + 1] == steps[..m] + [steps[m]];
      AfterOneMore(steps[..m], steps[m]);
      assert !SafeToContinue(After(steps[..m + 1]));
    }
  }

  lemma {:induction false} PrefixNeverLeaky(steps: seq<Step>, n: nat)
    requires NeverLeaky(steps) && n <= |steps|
    ensures NeverLeaky(steps[..n])
  {
    hide Leaky, Next;
    forall m | 0 <= m < n ensures !Leaky(After(steps[..n][..m]), steps[..n][m]) {
      assert steps[..n][..m] == steps[..m];
    }
  }

  // ---------------------------------------------------------------------------------------------
  // A pause pauses.

  // The containers that a phase deals with.
  function Items(phase: Phase): seq<Container> {
    match phase
    case Recovering => []
    case Sweeping => []
    case PauseList => []
    case ResumeList(_, ids, _, _) => ids
    case ResumeItem(_, ids, _, _, _, _, _) => ids
    case ResumeUnpause(_, ids, _, _, _, _, _) => ids
    case ResumeCheck(_, ids, _, _, _, _, _, _) => ids
    case PausePersist(ids) => ids
    case PauseItem(ids, _, _) => ids
    case Paused(ids, _) => ids
  }

  // Owners and records deal with containers of their own workspace only.
  ghost predicate AtHome(s: State) {
    && (forall w :: w in s.owners ==> HomePhase(s.owners[w], w))
    && (forall w :: w in s.records ==> AllOf(s.records[w].names, w))
  }

  ghost predicate HomePhase(phase: Phase, w: WorkspaceId) {
    AllOf(Items(phase), w) && (phase.PauseItem? ==> phase.k <= |phase.ids|)
  }

  // What a step of an owner leaves at home: its own items and its own record.
  ghost predicate HomeAfter(s: State, s': State, w: WorkspaceId) {
    && (w in s'.owners ==> HomePhase(s'.owners[w], w)) && (w in s'.records ==> AllOf(s'.records[w].names, w))
    && s'.owners - {w} == s.owners - {w} && s'.records - {w} == s.records - {w}
  }

  lemma {:induction false} PauseStaysHome(s: State, step: Step)
    requires AtHome(s) && step.Act? && step.w in s.owners
    requires var p := s.owners[step.w]; !p.ResumeList? && !p.ResumeItem? && !p.ResumeUnpause? && !p.ResumeCheck?
    ensures HomeAfter(s, PauseStep(s, step.w, s.owners[step.w], step.ok, step.effect, step.operation, step.listing), step.w)
  {
    var phase := s.owners[step.w];
    if phase.PauseList? && Elements(step.listing) == Of(s.containers, step.w) {
      assert forall c :: c in step.listing ==> c in Elements(step.listing);
    }
    assert HomePhase(phase, step.w);
  }

  lemma {:induction false} ResumeStaysHome(s: State, step: Step)
    requires step.Act? && step.w in s.owners && HomePhase(s.owners[step.w], step.w)
    requires step.w in s.records ==> AllOf(s.records[step.w].names, step.w)
    requires var p := s.owners[step.w]; p.ResumeList? || p.ResumeItem? || p.ResumeUnpause? || p.ResumeCheck?
    ensures HomeAfter(s, ResumeStep(s, step.w, s.owners[step.w], step.ok, step.effect), step.w)
  {
  }

  lemma {:induction false} ActStaysHome(s: State, step: Step)
    requires AtHome(s) && step.Act? && step.w in s.owners
    ensures AtHome(Next(s, step))
  {
    hide PauseStep, ResumeStep, AllOf, HomePhase;
    var s', w, phase := Next(s, step), step.w, s.owners[step.w];
    if phase.ResumeList? || phase.ResumeItem? || phase.ResumeUnpause? || phase.ResumeCheck? {
      ResumeStaysHome(s, step);
    } else {
      PauseStaysHome(s, step);
    }
    assert HomeAfter(s, s', w);
    hide Next;
    forall v | v in s'.owners && v != w ensures HomePhase(s'.owners[v], v) {
      assert v in s'.owners - {w} && v in s.owners - {w};
    }
    forall v | v in s'.records && v != w ensures AllOf(s'.records[v].names, v) {
      assert v in s'.records - {w} && v in s.records - {w};
    }
  }

  lemma {:induction false} OtherStepStaysHome(s: State, step: Step)
    requires AtHome(s) && (step.Act? ==> step.w !in s.owners)
    ensures AtHome(Next(s, step))
  {
    hide Lists;
  }

  lemma {:induction false} AtHomeAlways(steps: seq<Step>)
    ensures AtHome(After(steps))
  {
    hide Next;
    if steps != [] {
      AtHomeAlways(steps[..|steps| - 1]);
      var s, step := After(steps[..|steps| - 1]), steps[|steps| - 1];
      hide AtHome;
      if step.Act? && step.w in s.owners {
        ActStaysHome(s, step);
      } else {
        OtherStepStaysHome(s, step);
      }
    }
  }

  predicate Pausing(phase: Phase, ids: seq<Container>) {
    (phase.PausePersist? || phase.PauseItem? || phase.Paused?) && Items(phase) == ids
  }

  // How many of the items have been paused.
  function Progress(phase: Phase): nat {
    match phase
    case PauseItem(_, _, k) => k
    case Paused(ids, _) => |ids|
    case _ => 0
  }

  // Since its listing after n steps, which named every container of the workspace, the pause of `ids` has gone on.
  ghost predicate PausingSince(steps: seq<Step>, w: WorkspaceId, ids: seq<Container>, n: nat) {
    && n <= |steps| && Elements(ids) == Of(After(steps[..n]).containers, w)
    && forall m :: n <= m <= |steps| ==> w in After(steps[..m]).owners && Pausing(After(steps[..m]).owners[w], ids)
  }

  ghost predicate VanishedSince(steps: seq<Step>, c: Container, n: nat) {
    exists m :: n <= m < |steps| && steps[m] == Vanish(c)
  }

  // Item j became paused by step m, and is so still unless it vanished since.
  ghost predicate ItemPaused(steps: seq<Step>, w: WorkspaceId, ids: seq<Container>, j: nat, n: nat) {
    j < |ids| && exists m :: n < m <= |steps| && PausedBy(steps, w, ids[j], j, m)
  }

  ghost predicate PausedBy(steps: seq<Step>, w: WorkspaceId, c: Container, j: nat, m: nat) {
    && 0 < m <= |steps| && steps[m - 1].Act? && steps[m - 1].w == w
    && w in After(steps[..m]).owners && After(steps[..m]).owners[w].PauseItem? && After(steps[..m]).owners[w].k == j + 1
    && IsPaused(After(steps[..m]).containers, c)
    && (IsPaused(After(steps).containers, c) || VanishedSince(steps, c, m))
  }

  lemma {:induction false} PausedByExtends(steps: seq<Step>, step: Step, w: WorkspaceId, c: Container, j: nat, m: nat)
    requires PausedBy(steps, w, c, j, m)
    requires IsPaused(After(steps).containers, c) ==> IsPaused(After(steps + [step]).containers, c) || step == Vanish(c)
    ensures PausedBy(steps + [step], w, c, j, m)
  {
    hide After;
    var longer := steps + [step];
    assert longer[..m] == steps[..m] && longer[m - 1] == steps[m - 1];
    if VanishedSince(steps, c, m) {
      var n :| m <= n < |steps| && steps[n] == Vanish(c);
      assert longer[n] == Vanish(c);
    } else if step == Vanish(c) {
      assert longer[|steps|] == step;
    }
  }

  // While its workspace is being paused, a paused container stays paused or vanishes.
  lemma {:induction false} StaysPaused(s: State, step: Step, c: Container)
    requires AtHome(s) && BootOk(s) && IsPaused(s.containers, c)
    requires var w := c.workspace; var s' := Next(s, step);
      && w in s.owners && w in s'.owners && Pausing(s.owners[w], Items(s.owners[w])) && Pausing(s'.owners[w], Items(s.owners[w]))
    ensures IsPaused(Next(s, step).containers, c) || step == Vanish(c)
  {
    hide Lists;
    if step.Act? && step.w in s.owners && step.w != c.workspace {
      OthersUnpauseTheirOwn(s, step, c);
    } else if step.Act? && step.w in s.owners {
      OwnPauseUnpausesNothing(s, step, c);
    }
  }

  lemma {:induction false} OthersUnpauseTheirOwn(s: State, step: Step, c: Container)
    requires AtHome(s) && IsPaused(s.containers, c) && step.Act? && step.w in s.owners && step.w != c.workspace
    ensures IsPaused(Next(s, step).containers, c)
  {
    var phase := s.owners[step.w];
    assert AllOf(Items(phase), step.w);
  }

  lemma {:induction false} OwnPauseUnpausesNothing(s: State, step: Step, c: Container)
    requires IsPaused(s.containers, c) && step.Act? && step.w in s.owners && Pausing(s.owners[step.w], Items(s.owners[step.w]))
    ensures IsPaused(Next(s, step).containers, c)
  {
    hide ResumeStep;
  }

  // How a phase of the pause comes about: it stood already, or by a listing, or from the phase before it.
  lemma {:induction false} PauseMoves(s: State, step: Step, w: WorkspaceId)
    requires AtHome(s)
    requires var s' := Next(s, step); w in s'.owners && Pausing(s'.owners[w], Items(s'.owners[w]))
    ensures var s' := Next(s, step); var ids := Items(s'.owners[w]);
      || (w in s.owners && s'.owners[w] == s.owners[w])
      || (s'.owners[w].PausePersist? && Elements(ids) == Of(s'.containers, w) && w in s.owners && s.owners[w].PauseList?)
      || (w in s.owners && Pausing(s.owners[w], ids) && step.Act? && step.w == w
          && (Progress(s'.owners[w]) == Progress(s.owners[w])
              || (s.owners[w].PauseItem? && s'.owners[w].PauseItem? && s'.owners[w].k == s.owners[w].k + 1
                  && s.owners[w].k < |ids| && IsPaused(s'.containers, ids[s.owners[w].k]))))
  {
    hide Lists, PauseStep, ResumeStep;
    if step.Act? && step.w in s.owners {
      if step.w == w {
        OwnPauseMoves(s, step);
      } else {
        OwnerMovesAlone(s, step);
        assert w in Next(s, step).owners - {step.w} && w in s.owners - {step.w};
      }
      hide Next;
    }
    hide AtHome, Pausing;
  }

  lemma {:induction false} OwnerMovesAlone(s: State, step: Step)
    requires step.Act? && step.w in s.owners
    ensures Next(s, step).owners - {step.w} == s.owners - {step.w}
  {
    hide PauseStep, ResumeStep;
  }

  // The owner's own step.
  lemma {:induction false} OwnPauseMoves(s: State, step: Step)
    requires step.Act? && step.w in s.owners && step.w in Next(s, step).owners && HomePhase(s.owners[step.w], step.w)
    requires Pausing(Next(s, step).owners[step.w], Items(Next(s, step).owners[step.w]))
    ensures var w, s' := step.w, Next(s, step); var ids := Items(s'.owners[w]);
      || (s'.owners[w].PausePersist? && Elements(ids) == Of(s'.containers, w) && w in s.owners && s.owners[w].PauseList?)
      || (Pausing(s.owners[w], ids)
          && (Progress(s'.owners[w]) == Progress(s.owners[w])
              || (s.owners[w].PauseItem? && s'.owners[w].PauseItem? && s'.owners[w].k == s.owners[w].k + 1
                  && s.owners[w].k < |ids| && IsPaused(s'.containers, ids[s.owners[w].k]))))
  {
    var phase := s.owners[step.w];
    if phase.ResumeList? || phase.ResumeItem? || phase.ResumeUnpause? || phase.ResumeCheck? {
      ResumePausesNothing(s, step.w, step.ok, step.effect);
    } else {
      OwnPhaseMoves(s, step);
      assert Next(s, step) == PauseStep(s, step.w, phase, step.ok, step.effect, step.operation, step.listing);
      hide Next, PauseStep;
    }
  }

  lemma {:induction false} OwnPhaseMoves(s: State, step: Step)
    requires step.Act? && step.w in s.owners && HomePhase(s.owners[step.w], step.w)
    requires var p := s.owners[step.w]; !p.ResumeList? && !p.ResumeItem? && !p.ResumeUnpause? && !p.ResumeCheck?
    requires var s' := PauseStep(s, step.w, s.owners[step.w], step.ok, step.effect, step.operation, step.listing);
      step.w in s'.owners && Pausing(s'.owners[step.w], Items(s'.owners[step.w]))
    ensures var w := step.w;
      var s' := PauseStep(s, w, s.owners[w], step.ok, step.effect, step.operation, step.listing);
      var ids := Items(s'.owners[w]);
      || (s'.owners[w].PausePersist? && Elements(ids) == Of(s'.containers, w) && w in s.owners && s.owners[w].PauseList?)
      || (Pausing(s.owners[w], ids)
          && (Progress(s'.owners[w]) == Progress(s.owners[w])
              || (s.owners[w].PauseItem? && s'.owners[w].PauseItem? && s'.owners[w].k == s.owners[w].k + 1
                  && s.owners[w].k < |ids| && IsPaused(s'.containers, ids[s.owners[w].k]))))
  {
  }

  lemma {:induction false} ResumePausesNothing(s: State, w: WorkspaceId, ok: bool, effect: bool)
    requires w in s.owners
    requires var p := s.owners[w]; p.ResumeList? || p.ResumeItem? || p.ResumeUnpause? || p.ResumeCheck?
    ensures var s' := ResumeStep(s, w, s.owners[w], ok, effect);
      w in s'.owners ==> !Pausing(s'.owners[w], Items(s'.owners[w]))
  {
  }

  ghost predicate Tracked(steps: seq<Step>, w: WorkspaceId, ids: seq<Container>, progress: nat, n: nat) {
    PausingSince(steps, w, ids, n) && forall j :: 0 <= j < progress ==> ItemPaused(steps, w, ids, j, n)
  }

  /** In every run, while a workspace is being paused and while its filesystem change runs: the items are all the
      containers that there were at the listing, and each item dealt with so far was found paused, and is so still
      unless it vanished since. */
  lemma {:induction false} PausedItemsArePaused(steps: seq<Step>, w: WorkspaceId) returns (n: nat)
    requires w in After(steps).owners && Pausing(After(steps).owners[w], Items(After(steps).owners[w]))
    ensures Tracked(steps, w, Items(After(steps).owners[w]), Progress(After(steps).owners[w]), n)
  {
    hide Next, Pausing, PausingSince, ItemPaused, AtHome;
    var past, step := steps[..|steps| - 1], steps[|steps| - 1];
    assert steps == past + [step];
    var s, ids := After(past), Items(After(steps).owners[w]);
    AtHomeAlways(past);
    PauseMoves(s, step, w);
    if w in s.owners && Pausing(s.owners[w], ids) {
      PausingHasItems(s.owners[w], ids);
      n := PausedItemsArePaused(past, w);
      hide After;
      TrackedExtends(past, step, w, ids, n);
    } else {
      n := |steps|;
      hide After;
      ListingStarts(steps, w, ids);
    }
  }

  lemma {:induction false} PausingHasItems(phase: Phase, ids: seq<Container>)
    requires Pausing(phase, ids)
    ensures Items(phase) == ids && !phase.PauseList?
  {
  }

  lemma {:induction false} ListingStarts(steps: seq<Step>, w: WorkspaceId, ids: seq<Container>)
    requires w in After(steps).owners && After(steps).owners[w].PausePersist? && Items(After(steps).owners[w]) == ids
    requires Elements(ids) == Of(After(steps).containers, w)
    ensures Tracked(steps, w, ids, Progress(After(steps).owners[w]), |steps|)
  {
    hide After;
    assert steps[..|steps|] == steps;
  }

  lemma {:induction false} TrackedExtends(steps: seq<Step>, step: Step, w: WorkspaceId, ids: seq<Container>, n: nat)
    requires w in After(steps).owners && Pausing(After(steps).owners[w], ids)
    requires w in After(steps + [step]).owners && Pausing(After(steps + [step]).owners[w], ids)
    requires Tracked(steps, w, ids, Progress(After(steps).owners[w]), n)
    requires var now, later := After(steps).owners[w], After(steps + [step]).owners[w];
      || Progress(later) == Progress(now)
      || (now.PauseItem? && later.PauseItem? && later.k == now.k + 1 && now.k < |ids| && step.Act? && step.w == w
          && IsPaused(After(steps + [step]).containers, ids[now.k]))
    ensures Tracked(steps + [step], w, ids, Progress(After(steps + [step]).owners[w]), n)
  {
    AtHomeAlways(steps);
    BootOkAlways(steps);
    hide After, AtHome, BootOk;
    SinceExtends(steps, step, w, ids, n);
    forall j | 0 <= j < Progress(After(steps + [step]).owners[w]) ensures ItemPaused(steps + [step], w, ids, j, n) {
      if j < Progress(After(steps).owners[w]) {
        ItemStaysPaused(steps, step, w, ids, j, n);
      } else {
        ItemBecomesPaused(steps + [step], w, ids, j, n);
      }
    }
    hide PausingSince, ItemPaused;
  }

  lemma {:induction false} ItemBecomesPaused(steps: seq<Step>, w: WorkspaceId, ids: seq<Container>, j: nat, n: nat)
    requires n < |steps| && steps[|steps| - 1].Act? && steps[|steps| - 1].w == w
    requires w in After(steps).owners && After(steps).owners[w].PauseItem? && After(steps).owners[w].k == j + 1
    requires j < |ids| && IsPaused(After(steps).containers, ids[j])
    ensures ItemPaused(steps, w, ids, j, n)
  {
    hide After;
    assert steps[..|steps|] == steps;
    assert PausedBy(steps, w, ids[j], j, |steps|);
  }

  lemma {:induction false} SinceExtends(steps: seq<Step>, step: Step, w: WorkspaceId, ids: seq<Container>, n: nat)
    requires PausingSince(steps, w, ids, n)
    requires w in After(steps + [step]).owners && Pausing(After(steps + [step]).owners[w], ids)
    ensures PausingSince(steps + [step], w, ids, n)
  {
    hide After;
    var longer := steps + [step];
    assert longer[..n] == steps[..n];
    forall m | n <= m <= |longer| ensures w in After(longer[..m]).owners && Pausing(After(longer[..m]).owners[w], ids) {
      assert longer[..m] == if m <= |steps| then steps[..m] else longer;
    }
  }

  lemma {:induction false} ItemStaysPaused(steps: seq<Step>, step: Step, w: WorkspaceId, ids: seq<Container>, j: nat, n: nat)
    requires ItemPaused(steps, w, ids, j, n) && AtHome(After(steps)) && BootOk(After(steps))
    requires w in After(steps).owners && Pausing(After(steps).owners[w], ids)
    requires w in After(steps + [step]).owners && Pausing(After(steps + [step]).owners[w], ids)
    ensures ItemPaused(steps + [step], w, ids, j, n)
  {
    hide After, Next, BootOk;
    var m :| n < m <= |steps| && PausedBy(steps, w, ids[j], j, m);
    assert AllOf(Items(After(steps).owners[w]), w);
    hide AtHome;
    AfterOneMore(steps, step);
    if IsPaused(After(steps).containers, ids[j]) {
      StaysPaused(After(steps), step, ids[j]);
    }
    PausedByExtends(steps, step, w, ids[j], j, m);
  }

  ghost predicate AppearedSince(steps: seq<Step>, c: Container, n: nat) {
    exists m :: n <= m < |steps| && steps[m] == Appear(c)
  }

  // A container that has not appeared since was there, and has not vanished.
  lemma {:induction false} ThereAllAlong(steps: seq<Step>, c: Container, n: nat)
    requires n <= |steps| && c in After(steps).containers && !AppearedSince(steps, c, n)
    ensures c in After(steps[..n]).containers && !VanishedSince(steps, c, n)
  {
    assert steps[..|steps|] == steps;
    if n < |steps| {
      var past, step := steps[..|steps| - 1], steps[|steps| - 1];
      OnlyAppearingAdds(After(past), step, c);
      hide After, Next;
      assert past[..n] == steps[..n] && !AppearedSince(past, c, n);
      ThereAllAlong(past, c, n);
      forall m | n <= m < |steps| ensures steps[m] != Vanish(c) {
        if m < |past| {
          assert past[m] == steps[m];
        }
      }
    }
  }

  lemma {:induction false} OnlyAppearingAdds(s: State, step: Step, c: Container)
    requires c in Next(s, step).containers && step != Appear(c)
    ensures c in s.containers && step != Vanish(c)
  {
    hide Lists, PauseStep, ResumeStep;
  }

  lemma {:induction false} ItemCannotRun(steps: seq<Step>, w: WorkspaceId, ids: seq<Container>, j: nat, n: nat)
    requires ItemPaused(steps, w, ids, j, n) && !VanishedSince(steps, ids[j], n)
    ensures IsPaused(After(steps).containers, ids[j])
  {
    hide After;
  }

  /** While a filesystem change runs, a container of its workspace runs only if it appeared after the listing. */
  lemma {:induction false} OnlyNewContainersRun(steps: seq<Step>, w: WorkspaceId) returns (n: nat)
    requires w in After(steps).owners && After(steps).owners[w].Paused?
    ensures PausingSince(steps, w, After(steps).owners[w].ids, n)
    ensures forall c :: c in After(steps).containers && c.workspace == w && !IsPaused(After(steps).containers, c) ==>
      AppearedSince(steps, c, n)
  {
    hide After, Next;
    n := PausedItemsArePaused(steps, w);
    var ids := After(steps).owners[w].ids;
    forall c | c in After(steps).containers && c.workspace == w && !IsPaused(After(steps).containers, c)
      ensures AppearedSince(steps, c, n)
    {
      if !AppearedSince(steps, c, n) {
        ThereAllAlong(steps, c, n);
        assert c in Elements(ids);
        var j :| 0 <= j < |ids| && ids[j] == c;
        ItemCannotRun(steps, w, ids, j, n);
      }
    }
  }

  // ---------------------------------------------------------------------------------------------
  // When everything works.

  function SetAll(containers: map<Container, bool>, ids: seq<Container>, paused: bool): map<Container, bool> {
    if ids == [] then containers else SetAll(Set(containers, ids[0], paused), ids[1..], paused)
  }

  lemma {:induction false} SetAllSets(containers: map<Container, bool>, ids: seq<Container>, paused: bool)
    ensures SetAll(containers, ids, paused).Keys == containers.Keys
    ensures forall c :: c in containers ==> SetAll(containers, ids, paused)[c] == if c in ids then paused else containers[c]
  {
    if ids != [] {
      SetAllSets(Set(containers, ids[0], paused), ids[1..], paused);
      assert ids == [ids[0]] + ids[1..];
    }
  }

  lemma {:induction false} ThenOne(s: State, step: Step)
    ensures Then(s, [step]) == Next(s, step)
  {
    hide Next;
    assert [step][1..] == [];
  }

  // The items from k on are paused one by one.
  lemma {:induction false} PausesRest(s: State, w: WorkspaceId, ids: seq<Container>, op: nat, k: nat) returns (more: seq<Step>)
    requires w in s.owners && s.owners[w] == PauseItem(ids, op, k) && k <= |ids|
    requires forall c :: c in ids ==> c in s.containers
    ensures Then(s, more) == To(s.(containers := SetAll(s.containers, ids[k..], true)), w, Paused(ids, op))
    decreases |ids| - k
  {
    var s' := Next(s, Work(w));
    ThenOne(s, Work(w));
    if k == |ids| {
      more := [Work(w)];
    } else {
      assert ids[k] in ids;
      assert s' == To(s.(containers := Set(s.containers, ids[k], true)), w, PauseItem(ids, op, k + 1));
      assert ids[k..][0] == ids[k] && ids[k..][1..] == ids[k + 1..];
      var rest := PausesRest(s', w, ids, op, k + 1);
      ThenJoin(s, [Work(w)], rest);
      more := [Work(w)] + rest;
      hide Next;
      assert To(To(s, w, PauseItem(ids, op, k + 1)), w, Paused(ids, op)).owners == s.owners[w := Paused(ids, op)];
    }
  }

  function Item(goal: Goal, ids: seq<Container>, op: nat, listed: set<Container>, k: nat): Phase {
    ResumeItem(goal, ids, op, 0, listed, k, false)
  }

  // The items from k on are resumed one by one, in three steps each, and the record is cleared.
  lemma {:induction false} ResumesRest(
      s: State, w: WorkspaceId, goal: Goal, ids: seq<Container>, op: nat, listed: set<Container>, k: nat)
    returns (more: seq<Step>)
    requires w in s.owners && s.owners[w] == Item(goal, ids, op, listed, k) && k <= |ids| && NoDup(ids)
    requires forall c :: c in ids ==> c in listed && c in s.containers
    requires forall j :: k <= j < |ids| ==> s.containers[ids[j]]
    requires w in s.records && s.records[w].operation == op
    ensures Then(s, more) == Resumed(s.(containers := SetAll(s.containers, ids[k..], false), records := s.records - {w}), w, goal)
    decreases |ids| - k
  {
    if k == |ids| {
      more := [Work(w)];
      ThenOne(s, Work(w));
    } else {
      var s' := ItemResumed(s, w, goal, ids, op, listed, k);
      assert ids[k..][0] == ids[k] && ids[k..][1..] == ids[k + 1..];
      hide Next;
      var rest := ResumesRest(s', w, goal, ids, op, listed, k + 1);
      ThenJoin(s, [Work(w), Work(w), Work(w)], rest);
      more := [Work(w), Work(w), Work(w)] + rest;
      assert s.owners[w := Item(goal, ids, op, listed, k + 1)] - {w} == s.owners - {w};
      assert s.owners[w := Item(goal, ids, op, listed, k + 1)][w := Sweeping] == s.owners[w := Sweeping];
    }
  }

  lemma {:induction false} ItemResumed(
      s: State, w: WorkspaceId, goal: Goal, ids: seq<Container>, op: nat, listed: set<Container>, k: nat)
    returns (s': State)
    requires w in s.owners && s.owners[w] == Item(goal, ids, op, listed, k) && k < |ids|
    requires ids[k] in listed && IsPaused(s.containers, ids[k])
    ensures s' == To(s.(containers := Set(s.containers, ids[k], false)), w, Item(goal, ids, op, listed, k + 1))
    ensures Then(s, [Work(w), Work(w), Work(w)]) == s'
  {
    var s1 := Next(s, Work(w));
    assert s1 == To(s, w, ResumeUnpause(goal, ids, op, 0, listed, k, false));
    var s2 := Next(s1, Work(w));
    assert s2 == To(s.(containers := Set(s.containers, ids[k], false)), w,
                    ResumeCheck(goal, ids, op, 0, listed, k, false, true));
    s' := Next(s2, Work(w));
    ThenThree(s, Work(w));
  }

  // Nobody owns the workspace, nothing of it is paused or recorded, and `listing` is all of it.
  ghost predicate Ready(s: State, w: WorkspaceId, listing: seq<Container>) {
    && s.boot.Up? && w !in s.owners && w !in s.records
    && listing != [] && NoDup(listing) && Elements(listing) == Of(s.containers, w)
    && forall c :: c in listing ==> c in s.containers && !s.containers[c]
  }

  lemma {:induction false} GetsToPersist(s: State, w: WorkspaceId, listing: seq<Container>, op: nat) returns (more: seq<Step>)
    requires Ready(s, w, listing)
    ensures Then(s, more) == To(s.(records := s.records[w := Record(op, listing)]), w, PauseItem(listing, op, 0))
  {
    hide Next;
    var list, persist := Act(w, true, true, 0, listing), Act(w, true, true, op, []);
    var s1 := GetsToList(s, w, listing);
    PersistsListing(s1, w, listing, op);
    ThenOne(s1, list);
    ThenOne(Next(s1, list), persist);
    ThenJoin(s, [Own(w), Work(w), Work(w)], [list]);
    ThenJoin(s, [Own(w), Work(w), Work(w)] + [list], [persist]);
    more := [Own(w), Work(w), Work(w)] + [list] + [persist];
  }

  lemma {:induction false} GetsToList(s: State, w: WorkspaceId, listing: seq<Container>) returns (s': State)
    requires Ready(s, w, listing)
    ensures s' == To(s, w, PauseList) && s' == Then(s, [Own(w), Work(w), Work(w)])
  {
    var s1 := Next(s, Own(w));
    assert s1 == To(s, w, Recovering);
    var s2 := Next(s1, Work(w));
    assert s2 == To(s, w, Sweeping);
    s' := Next(s2, Work(w));
    hide Next;
    assert [Own(w), Work(w), Work(w)][1..] == [Work(w), Work(w)] && [Work(w), Work(w)][1..] == [Work(w)];
    ThenOne(s2, Work(w));
  }

  lemma {:induction false} PersistsListing(s: State, w: WorkspaceId, listing: seq<Container>, op: nat)
    requires w in s.owners && s.owners[w] == PauseList && listing != [] && Elements(listing) == Of(s.containers, w)
    ensures Next(Next(s, Act(w, true, true, 0, listing)), Act(w, true, true, op, [])) ==
      To(s.(records := s.records[w := Record(op, listing)]), w, PauseItem(listing, op, 0))
  {
    assert Next(s, Act(w, true, true, 0, listing)) == To(s, w, PausePersist(listing));
  }

  /** Whatever the number of containers: when everything works, a pause leads to a state in which all of them are
      paused and named by the record, and nothing else is different; and from there the end of the pause leads back
      to where it began. */
  lemma {:induction false} PauseAndResumeRoundTrip(s: State, w: WorkspaceId, listing: seq<Container>, op: nat)
    returns (pause: seq<Step>, resume: seq<Step>)
    requires Ready(s, w, listing)
    ensures var paused := Then(s, pause);
      && paused == s.(containers := paused.containers, records := s.records[w := Record(op, listing)],
                      owners := s.owners[w := Paused(listing, op)])
      && paused.containers.Keys == s.containers.Keys
      && forall c :: c in s.containers ==> paused.containers[c] == (c.workspace == w || s.containers[c])
    ensures Then(Then(s, pause), resume) == s
  {
    hide Next;
    var first := GetsToPersist(s, w, listing, op);
    var persisted := Then(s, first);
    forall c | c in listing ensures c in s.containers && c.workspace == w {
      assert c in Elements(listing);
    }
    forall c | c in s.containers && c.workspace == w ensures c in listing {
      assert c in Elements(listing);
    }
    var rest := PausesRest(persisted, w, listing, op, 0);
    assert listing[0..] == listing;
    ThenJoin(s, first, rest);
    pause := first + rest;
    var paused := Then(s, pause);
    SetAllSets(s.containers, listing, true);
    resume := ResumesAll(paused, w, listing, op);
    SetAllSets(paused.containers, listing, false);
    assert SetAll(paused.containers, listing, false) == s.containers;
  }

  lemma {:induction false} ResumesAll(s: State, w: WorkspaceId, ids: seq<Container>, op: nat) returns (more: seq<Step>)
    requires w in s.owners && s.owners[w] == Paused(ids, op) && ids != [] && NoDup(ids)
    requires forall c :: c in ids ==> IsPaused(s.containers, c) && c.workspace == w
    requires w in s.records && s.records[w].operation == op
    ensures Then(s, more) == s.(containers := SetAll(s.containers, ids, false), records := s.records - {w}, owners := s.owners - {w})
  {
    var s1 := Next(s, Work(w));
    assert s1 == To(s, w, ResumeList(ToFinish, ids, op, 0));
    ThenOne(s, Work(w));
    hide Next;
    var rest := ResumesList(s1, w, ToFinish, ids, op);
    ThenJoin(s, [Work(w)], rest);
    more := [Work(w)] + rest;
    assert s.owners[w := ResumeList(ToFinish, ids, op, 0)] - {w} == s.owners - {w};
  }

  // From the listing on.
  lemma {:induction false} ResumesList(s: State, w: WorkspaceId, goal: Goal, ids: seq<Container>, op: nat) returns (more: seq<Step>)
    requires w in s.owners && s.owners[w] == ResumeList(goal, ids, op, 0) && ids != [] && NoDup(ids)
    requires forall c :: c in ids ==> IsPaused(s.containers, c) && c.workspace == w
    requires w in s.records && s.records[w].operation == op
    ensures Then(s, more) == Resumed(s.(containers := SetAll(s.containers, ids, false), records := s.records - {w}), w, goal)
  {
    var listed := Of(s.containers, w);
    var s1 := Next(s, Work(w));
    assert s1 == To(s, w, Item(goal, ids, op, listed, 0));
    ThenOne(s, Work(w));
    hide Next;
    forall j | 0 <= j < |ids| ensures ids[j] in s1.containers && s1.containers[ids[j]] {
      assert ids[j] in ids;
    }
    var rest := ResumesRest(s1, w, goal, ids, op, listed, 0);
    assert ids[0..] == ids;
    ThenJoin(s, [Work(w)], rest);
    more := [Work(w)] + rest;
    assert s.owners[w := Item(goal, ids, op, listed, 0)] - {w} == s.owners - {w};
    assert s.owners[w := Item(goal, ids, op, listed, 0)][w := Sweeping] == s.owners[w := Sweeping];
  }

  /** A record left by an earlier pause is dealt with before a new one: when everything works, its containers run again
      and it is cleared, and only then the new pause goes on. */
  lemma {:induction false} RecoveryComesFirst(s: State, w: WorkspaceId) returns (more: seq<Step>)
    requires w in s.owners && s.owners[w] == Recovering && w in s.records
    requires s.records[w].names != [] && NoDup(s.records[w].names)
    requires forall c :: c in s.records[w].names ==> IsPaused(s.containers, c) && c.workspace == w
    ensures Then(s, more) == To(s.(containers := SetAll(s.containers, s.records[w].names, false), records := s.records - {w}), w, Sweeping)
  {
    var Record(op, ids) := s.records[w];
    var s1 := Next(s, Work(w));
    assert s1 == To(s, w, ResumeList(ForPause, ids, op, 0));
    ThenOne(s, Work(w));
    hide Next;
    var rest := ResumesList(s1, w, ForPause, ids, op);
    ThenJoin(s, [Work(w)], rest);
    more := [Work(w)] + rest;
    assert s.owners[w := ResumeList(ForPause, ids, op, 0)][w := Sweeping] == s.owners[w := Sweeping];
  }

  /** A pause that fails before its first container gives up and pauses nothing; a record is there only if its write
      took effect all the same. */
  lemma {:induction false} EarlyFailureLeaves(s: State, w: WorkspaceId, effect: bool, op: nat, listing: seq<Container>)
    requires w in s.owners
    requires var p := s.owners[w]; p.Recovering? || p.Sweeping? || p.PauseList? || p.PausePersist?
    ensures Next(s, Act(w, false, effect, op, listing)) ==
      Leave(if s.owners[w].PausePersist? && effect then s.(records := s.records[w := Record(op, s.owners[w].ids)]) else s, w)
    ensures s.owners[w].PauseList? && (listing == [] || Elements(listing) != Of(s.containers, w)) ==>
      Next(s, Act(w, true, effect, op, listing)) == Leave(s, w)
  {
    hide ResumeStep;
  }

  /** A record is cleared only by its own operation, by the end of a resume or by a start that listed it. */
  lemma {:induction false} OnlyOwnRecordIsCleared(s: State, step: Step, w: WorkspaceId)
    requires w in s.records && w !in Next(s, step).records
    ensures (step.Act? && step.w == w && w in s.owners && s.owners[w].ResumeItem? && s.owners[w].operation == s.records[w].operation)
      || (step.BootClear? && s.boot.Clearing? && s.boot.left != [] && s.boot.left[0] == Listed(w, s.records[w].operation))
  {
    hide Lists;
    if step.Act? && step.w in s.owners {
      var phase := s.owners[step.w];
      if phase.ResumeList? || phase.ResumeItem? || phase.ResumeUnpause? || phase.ResumeCheck? {
        ResumeClearsOwn(s, step.w, step.ok, step.effect, w);
      } else {
        PauseClearsNothing(s, step, w);
      }
    }
  }

  lemma {:induction false} ResumeClearsOwn(s: State, w: WorkspaceId, ok: bool, effect: bool, v: WorkspaceId)
    requires w in s.owners
    requires var p := s.owners[w]; p.ResumeList? || p.ResumeItem? || p.ResumeUnpause? || p.ResumeCheck?
    requires v in s.records && v !in ResumeStep(s, w, s.owners[w], ok, effect).records
    ensures v == w && s.owners[w].ResumeItem? && s.owners[w].operation == s.records[w].operation
  {
    assert v != w ==> v in s.records - {w};
  }

  lemma {:induction false} PauseClearsNothing(s: State, step: Step, v: WorkspaceId)
    requires step.Act? && step.w in s.owners && v in s.records
    requires var p := s.owners[step.w]; !p.ResumeList? && !p.ResumeItem? && !p.ResumeUnpause? && !p.ResumeCheck?
    ensures v in PauseStep(s, step.w, s.owners[step.w], step.ok, step.effect, step.operation, step.listing).records
  {
  }

  /** After a crash the daemon serves again only through a start that found no container and left no record. */
  lemma {:induction false} ServesOnlyAfterStart(steps: seq<Step>, more: seq<Step>) returns (n: nat)
    requires After(steps + [Crash] + more).boot.Up?
    ensures 0 < n <= |more| && After(steps + [Crash] + more[..n]) == State(map[], map[], map[], Up)
  {
    var crashed := steps + [Crash];
    AfterOneMore(steps, Crash);
    assert crashed + [] == crashed && !After(crashed).boot.Up?;
    hide After, Next, BootOk;
    assert more != [];
    var past, step := more[..|more| - 1], more[|more| - 1];
    assert crashed + more == (crashed + past) + [step];
    AfterOneMore(crashed + past, step);
    if After(crashed + past).boot.Up? {
      n := ServesOnlyAfterStart(steps, past);
      assert past[..n] == more[..n];
    } else {
      n := |more|;
      assert more[..n] == more;
      ReconciliationEndsClean(crashed + past, step);
      BootOkAlways(crashed + past);
      NobodyOwnsAtFirst(After(crashed + past), step);
    }
  }

  lemma {:induction false} NobodyOwnsAtFirst(s: State, step: Step)
    requires BootOk(s) && !s.boot.Up? && Next(s, step).boot.Up?
    ensures Next(s, step).owners == map[] && Next(s, step).boot == Up
  {
    hide Lists;
    if step.Act? {
      ActKeepsBoot(s, step);
    }
  }
  /** An attempt to resume that leaves something unresolved is made three times; then the owner gives up, and the
      record stays. A change that could not be contained leaves pause and record as they are. */
  lemma {:induction false} UnresolvedIsRetried(s: State, w: WorkspaceId, ok: bool, effect: bool)
    requires w in s.owners
    ensures var s' := Next(s, Act(w, ok, effect, 0, []));
      match s.owners[w]
      case ResumeItem(goal, ids, op, attempt, _, k, true) =>
        k >= |ids| ==> s' == if attempt < 2 then To(s, w, ResumeList(goal, ids, op, attempt + 1)) else Leave(s, w)
      case Paused(_, _) => !ok ==> s' == Leave(s, w)
      case _ => true
  {
  }

  // Any number of records can be listed.
  lemma {:induction false} ListingExists(records: map<WorkspaceId, Record>) returns (listed: seq<Listed>)
    ensures Lists(listed, records)
    decreases |records|
  {
    if records == map[] {
      listed := [];
    } else {
      var w :| w in records;
      var rest := ListingExists(records - {w});
      listed := [Listed(w, records[w].operation)] + rest;
      FirstIsListed(rest, records, w);
    }
  }

  lemma {:induction false} FirstIsListed(rest: seq<Listed>, records: map<WorkspaceId, Record>, w: WorkspaceId)
    requires w in records && Lists(rest, records - {w})
    ensures Lists([Listed(w, records[w].operation)] + rest, records)
  {
    var listed := [Listed(w, records[w].operation)] + rest;
    forall v | v in records ensures exists i :: 0 <= i < |listed| && listed[i].workspace == v {
      if v == w {
        assert listed[0].workspace == v;
      } else {
        assert v in records - {w};
        var i :| 0 <= i < |rest| && rest[i].workspace == v;
        assert listed[i + 1].workspace == v;
      }
    }
  }

  lemma {:induction false} BootRemovesAll(s: State) returns (more: seq<Step>)
    requires s.boot.Removing?
    ensures Then(s, more) == s.(containers := map[])
    decreases |s.containers|
  {
    if s.containers == map[] {
      more := [];
    } else {
      var c :| c in s.containers;
      var s' := Next(s, BootRemove(c));
      ThenOne(s, BootRemove(c));
      var rest := BootRemovesAll(s');
      hide Next;
      ThenJoin(s, [BootRemove(c)], rest);
      more := [BootRemove(c)] + rest;
    }
  }

  lemma {:induction false} BootClearsAll(s: State) returns (more: seq<Step>)
    requires s.boot.Clearing? && s.containers == map[] && Lists(s.boot.left, s.records)
    ensures Then(s, more) == s.(boot := Up, records := map[])
    decreases |s.boot.left|
  {
    if s.boot.left == [] {
      assert s.records == map[];
      ThenOne(s, BootDone);
      more := [BootDone];
    } else {
      RestIsListed(s.boot.left, s.records);
      hide Lists;
      var s' := Next(s, BootClear(true, true));
      assert s' == s.(records := s.records - {s.boot.left[0].workspace}, boot := Clearing(s.boot.left[1..])) by {
        FirstIsThere(s.boot.left, s.records);
      }
      ThenOne(s, BootClear(true, true));
      var rest := BootClearsAll(s');
      hide Next;
      ThenJoin(s, [BootClear(true, true)], rest);
      more := [BootClear(true, true)] + rest;
    }
  }

  lemma {:induction false} FirstIsThere(listed: seq<Listed>, records: map<WorkspaceId, Record>)
    requires listed != [] && Lists(listed, records)
    ensures listed[0].workspace in records && records[listed[0].workspace].operation == listed[0].operation
  {
  }

  /** From every state after a crash, with any containers and records, a start in which everything works ends with a
      daemon that serves, no container and no record. */
  lemma {:induction false} QuietStartServes(s: State) returns (more: seq<Step>)
    requires s.boot.Down? && s.owners == map[]
    ensures Then(s, more) == State(map[], map[], map[], Up)
  {
    var listed := ListingExists(s.records);
    hide Lists;
    var s1 := Next(s, BootList(listed));
    assert s1 == s.(boot := Removing(listed));
    ThenOne(s, BootList(listed));
    var removing := BootRemovesAll(s1);
    var s2 := Then(s1, removing);
    var s3 := Next(s2, BootCheck);
    assert s3 == s2.(boot := Clearing(listed));
    ThenOne(s2, BootCheck);
    var clearing := BootClearsAll(s3);
    hide Next;
    ThenJoin(s, [BootList(listed)], removing);
    ThenJoin(s, [BootList(listed)] + removing, [BootCheck]);
    ThenJoin(s, [BootList(listed)] + removing + [BootCheck], clearing);
    more := [BootList(listed)] + removing + [BootCheck] + clearing;
  }

  const FIRST := Container(7, 1)
  const SECOND := Container(7, 2)

  const GO := Act(7, true, true, 1, [])

  // Two containers; the first is paused, the pause of the second takes effect but is counted as failed,
  // and resuming the first clears the record of both.
  const LISTED: seq<Step> := [Appear(FIRST), Appear(SECOND), Own(7)] + [GO, GO, Act(7, true, true, 0, [FIRST, SECOND])]
  const LEAKED: seq<Step> := LISTED + [GO, GO, Act(7, false, true, 0, [])]
  const UNPAUSED: seq<Step> := LEAKED + [GO, GO, GO]
  const CLEARED: seq<Step> := UNPAUSED + [GO] + [GO]

  lemma {:induction false} ListedState()
    ensures After(LISTED) == State(map[FIRST := false, SECOND := false], map[], map[7 := PausePersist([FIRST, SECOND])], Up)
  {
    hide Next;
    var start := [Appear(FIRST), Appear(SECOND), Own(7)];
    assert [] + start == start;
    AfterThreeMore([], Appear(FIRST), Appear(SECOND), Own(7));
    AfterThreeMore(start, GO, GO, Act(7, true, true, 0, [FIRST, SECOND]));
    assert After([]) == State(map[], map[], map[], Up);
    hide After;
    OwningSteps();
    ListingSteps();
  }

  lemma {:induction false} OwningSteps()
    ensures Next(Next(Next(State(map[], map[], map[], Up), Appear(FIRST)), Appear(SECOND)), Own(7)) ==
      State(map[FIRST := false, SECOND := false], map[], map[7 := Recovering], Up)
  {
    hide PauseStep, ResumeStep;
    assert FIRST != SECOND;
  }

  lemma {:induction false} ListingSteps()
    ensures var s := State(map[FIRST := false, SECOND := false], map[], map[7 := Recovering], Up);
      Next(Next(Next(s, GO), GO), Act(7, true, true, 0, [FIRST, SECOND])) == To(s, 7, PausePersist([FIRST, SECOND]))
  {
    hide ResumeStep;
    var s := State(map[FIRST := false, SECOND := false], map[], map[7 := Recovering], Up);
    assert Next(s, GO) == To(s, 7, Sweeping);
    assert Next(To(s, 7, Sweeping), GO) == To(s, 7, PauseList);
    assert Of(s.containers, 7) == Elements([FIRST, SECOND]);
  }

  lemma {:induction false} LeakedState()
    ensures After(LEAKED) == State(map[FIRST := true, SECOND := true], map[7 := Record(1, [FIRST, SECOND])],
                                   map[7 := ResumeList(AfterFailedPause, [FIRST], 1, 0)], Up)
  {
    hide After, Next;
    ListedState();
    AfterThreeMore(LISTED, GO, GO, Act(7, false, true, 0, []));
    LeakingSteps();
  }

  lemma {:induction false} LeakingSteps()
    ensures Next(Next(Next(State(map[FIRST := false, SECOND := false], map[], map[7 := PausePersist([FIRST, SECOND])], Up), GO), GO),
                 Act(7, false, true, 0, [])) ==
      State(map[FIRST := true, SECOND := true], map[7 := Record(1, [FIRST, SECOND])],
            map[7 := ResumeList(AfterFailedPause, [FIRST], 1, 0)], Up)
  {
    hide Next;
    var s0 := State(map[FIRST := false, SECOND := false], map[], map[7 := PausePersist([FIRST, SECOND])], Up);
    var ids, records := [FIRST, SECOND], map[7 := Record(1, [FIRST, SECOND])];
    var s1 := State(map[FIRST := false, SECOND := false], records, map[7 := PauseItem(ids, 1, 0)], Up);
    var s2 := State(map[FIRST := true, SECOND := false], records, map[7 := PauseItem(ids, 1, 1)], Up);
    var s3 := State(map[FIRST := true, SECOND := true], records, map[7 := ResumeList(AfterFailedPause, [FIRST], 1, 0)], Up);
    assert Next(s0, GO) == s1 by {
      RecordIsPersisted(s0, 7, ids, 1);
      assert map[][7 := Record(1, ids)] == records;
      OneOwner(s0.owners[7], s1.owners[7]);
    }
    assert Next(s1, GO) == s2 by {
      ItemIsPaused(s1, 7, ids, 1, 0);
      assert Set(s1.containers, FIRST, true) == s2.containers;
      OneOwner(s1.owners[7], s2.owners[7]);
    }
    assert Next(s2, Act(7, false, true, 0, [])) == s3 by {
      ItemLeaks(s2, 7, ids, 1, 1);
      assert ids[..1] == [FIRST] && Set(s2.containers, SECOND, true) == s3.containers;
      OneOwner(s2.owners[7], s3.owners[7]);
    }
  }

  lemma {:induction false} OneOwner(now: Phase, next: Phase)
    ensures map[7 := now][7 := next] == map[7 := next]
  {
  }

  lemma {:induction false} RecordIsPersisted(s: State, w: WorkspaceId, ids: seq<Container>, op: nat)
    requires w in s.owners && s.owners[w] == PausePersist(ids)
    ensures Next(s, Act(w, true, true, op, [])) == To(s.(records := s.records[w := Record(op, ids)]), w, PauseItem(ids, op, 0))
  {
    hide ResumeStep;
  }

  lemma {:induction false} ItemIsPaused(s: State, w: WorkspaceId, ids: seq<Container>, op: nat, k: nat)
    requires w in s.owners && s.owners[w] == PauseItem(ids, op, k) && k < |ids| && ids[k] in s.containers
    ensures Next(s, Act(w, true, true, op, [])) == To(s.(containers := Set(s.containers, ids[k], true)), w, PauseItem(ids, op, k + 1))
  {
    hide ResumeStep;
  }

  lemma {:induction false} ItemLeaks(s: State, w: WorkspaceId, ids: seq<Container>, op: nat, k: nat)
    requires w in s.owners && s.owners[w] == PauseItem(ids, op, k) && 0 < k < |ids| && ids[k] in s.containers
    ensures Next(s, Act(w, false, true, 0, [])) ==
      To(s.(containers := Set(s.containers, ids[k], true)), w, ResumeList(AfterFailedPause, ids[..k], op, 0))
  {
    hide ResumeStep;
  }

  lemma {:induction false} UnpausedState()
    ensures After(UNPAUSED) == State(map[FIRST := false, SECOND := true], map[7 := Record(1, [FIRST, SECOND])],
      map[7 := ResumeCheck(AfterFailedPause, [FIRST], 1, 0, {FIRST, SECOND}, 0, false, true)], Up)
  {
    LeakedState();
    AfterThreeMore(LEAKED, GO, GO, GO);
    hide After;
    ghost var leaked := After(LEAKED);
    assert Of(leaked.containers, 7) == {FIRST, SECOND};
    ghost var listed := To(leaked, 7, ResumeItem(AfterFailedPause, [FIRST], 1, 0, {FIRST, SECOND}, 0, false));
    assert Next(leaked, GO) == listed;
    ghost var seen := To(leaked, 7, ResumeUnpause(AfterFailedPause, [FIRST], 1, 0, {FIRST, SECOND}, 0, false));
    assert Next(listed, GO) == seen;
  }

  /** Such a run exists: it ends with a paused container and no record of it. */
  lemma {:induction false} LeakyRunLosesAContainer()
    ensures var s := After(CLEARED); IsPaused(s.containers, SECOND) && 7 !in s.records && 7 !in s.owners
  {
    UnpausedState();
    AfterOneMore(UNPAUSED, GO);
    AfterOneMore(UNPAUSED + [GO], GO);
  }
}

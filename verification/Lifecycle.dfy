// The lifecycle of one terminal session, shared by the start call, the monitor, the output drain and any
// number of terminate calls, timeouts and background cleanups (crates/gobrowse-sandboxd/src/runtime.rs).
// Every read or write of shared state is a step of its own; they interleave freely.
module Lifecycle {
  import opened Basics
  import J = Journal

  datatype LifecycleState = Starting | Running | Terminating | Unrecoverable | Exited | Terminated

  predicate IsTerminal(s: LifecycleState) { s == Exited || s == Terminated }

  predicate Alive(s: LifecycleState) { s == Starting || s == Running }

  function StoredAs(s: LifecycleState): J.StoredState {
    match s
    case Starting => J.Running
    case Running => J.Running
    case Terminating => J.Terminating
    case Unrecoverable => J.Unrecoverable
    case Exited => J.Exited
    case Terminated => J.Terminated
  }

  // The state that `transition(next)` leaves behind.
  function NextState(current: LifecycleState, next: LifecycleState): LifecycleState {
    if IsTerminal(current) then current
    else match next
      case Starting => current
      case Running => if current == Starting then Running else current
      case Terminating => Terminating
      case Unrecoverable => Unrecoverable
      case Exited => Exited
      case Terminated => Terminated
  }

  class Session {
    var state: LifecycleState
    var terminationRequested: bool
    var terminationOwner: bool

    constructor ()
      ensures state == Starting && !terminationRequested && !terminationOwner
    {
      state, terminationRequested, terminationOwner := Starting, false, false;
    }

    method Transition(next: LifecycleState) returns (changed: bool)
      modifies this`state
      ensures state == NextState(old(state), next)
      ensures changed == (state != old(state))
    {
      if state == Exited || state == Terminated {
        return false;
      }
      var allowed;
      match next {
      case Starting => allowed := false;
      case Running => allowed := state == LifecycleState.Starting;
      case Terminating => allowed := state in {LifecycleState.Starting, LifecycleState.Running, Unrecoverable};
      case Unrecoverable => allowed := state in {LifecycleState.Starting, LifecycleState.Running, LifecycleState.Terminating};
      case Exited => allowed := true;
      case Terminated => allowed := true;
      }
      if allowed && state != next {
        state := next;
        return true;
      }
      return false;
    }

    method ClaimTermination() returns (claimed: bool)
      modifies this`terminationOwner
      ensures terminationOwner && claimed == !old(terminationOwner)
    {
      claimed := !terminationOwner;
      terminationOwner := true;
    }

    // Dropping a TerminationClaim.
    method ReleaseTermination()
      modifies this`terminationOwner
      ensures !terminationOwner
    {
      terminationOwner := false;
    }

    // What begin_termination does when nobody interferes; the steps below take it apart.
    method BeginTermination() returns (begun: bool)
      modifies this`state, this`terminationRequested
      ensures begun == !IsTerminal(old(state))
      ensures terminationRequested == (old(terminationRequested) || begun)
      ensures state == if begun then NextState(old(state), Terminating) else old(state)
    {
      var seen := state;
      if seen == Exited || seen == Terminated {
        return false;
      }
      terminationRequested := true;
      if seen == LifecycleState.Starting || seen == LifecycleState.Running || seen == Unrecoverable {
        var _ := Transition(LifecycleState.Terminating);
      }
      begun := true;
    }
  }

  // ---------------------------------------------------------------------------------------------
  // Who takes part, and where each of them stands.

  datatype Caller = StartCall | Client

  // Why `begin_termination` was called, hence what follows it.
  datatype Use = ForCleanup(caller: Caller) | ForTerminate | ForDrain | ForDrop

  datatype Pc =
    // start
    | Probe                                  // await_readiness, then the state is read
    | CheckExit                              // the record is read: has the command ended already?
    | Resize                                 // the first resize is awaited, then the state becomes Running
    | Recheck                                // the resize failed; the record is read again after a while
    | MarkRunning                            // journal.set_running
    | Guard                                  // the cancellation guard is dropped while armed
    | FailedStart                            // journal the failed start
    // terminate, before it calls begin_termination
    | Ask
    // begin_termination
    | Look(use: Use)
    | Flag(seen: LifecycleState, use: Use)
    | Shift(seen: LifecycleState, use: Use)
    // cleanup_until and cleanup_attempt; `back` is the caller of cleanup_until, or none in the background
    | Announce(use: Use)
    | Loop(caller: Caller)
    | Overdue(caller: Caller)
    | GaveUp(caller: Caller)
    | Attempt(back: Option<Caller>)
    | Claim(back: Option<Caller>)
    | Holding(back: Option<Caller>)
    | Returned(caller: Caller, cleaned: bool)
    | Spawn
    | Background
    | Leaving                                // the background cleanup ends and clears its flag
    // output drain
    | Draining
    | Record
    | RecordAs(value: J.StoredState)
    // monitor
    | Waiting
    | PanicAs(value: J.StoredState)
    | Decide
    | Journal(final: LifecycleState)
    | Complete(final: LifecycleState)
    | Finish(final: LifecycleState)
    | Done

  datatype Shared = Shared(
    life: LifecycleState,
    requested: bool,         // termination_requested
    owner: bool,             // termination_owner
    background: bool,        // background_cleanup_started
    journal: J.StoredState,
    drained: bool,           // the drain task has ended
    panicked: bool,          // ... by a panic
    completed: bool,         // the monitor has called registry.complete
    removed: bool,           // the failed start has called registry.remove_completed
    settled: bool,           // the monitor's final state has reached the journal
    entered: nat)            // how often the state became Running

  type TaskId = nat

  datatype State = State(g: Shared, tasks: map<TaskId, Pc>)

  const START: TaskId := 0
  const MONITOR: TaskId := 1
  const DRAIN: TaskId := 2

  const INITIAL := State(
    Shared(Starting, false, false, false, J.Starting, false, false, false, false, false, 0),
    map[START := Probe, MONITOR := Waiting, DRAIN := Draining])

  // What the outside world decides at a step.
  datatype Choice = Go | Fail | Stop

  datatype Step =
    | Run(t: TaskId, choice: Choice, fault: bool)
    | Terminate(t: TaskId)   // a terminate call
    | Expire(t: TaskId)      // an expired execution timeout, which goes to cleanup_until at once
    | SpawnCleanup(t: TaskId)   // spawn_persistent_cleanup, whoever asks for it

  function Moved(g: Shared, next: LifecycleState): (moved: Shared)
    ensures moved.journal == g.journal && moved.settled == g.settled && moved.background == g.background
  {
    var life := NextState(g.life, next);
    g.(life := life, entered := if life == Running && g.life != Running then g.entered + 1 else g.entered)
  }

  function Stored(g: Shared, value: J.StoredState, fault: bool): Shared {
    if fault then g else g.(journal := value)
  }

  function Back(back: Option<Caller>): Pc {
    match back
    case Some(caller) => Loop(caller)
    case None => Background
  }

  // journal.set_running on the stored state of an existing row.
  function MarkedRunning(stored: J.StoredState): J.StoredState {
    if stored in {J.Starting, J.Running} then J.Running else stored
  }

  /** What this says of one stored state is what the journal does to the record, and to nothing else. */
  lemma {:induction false} RecordFollowsJournal(t: J.Terminals, id: nat, value: J.StoredState, exitCode: Option<int>,
                                                reason: Option<string>, complete: Option<bool>)
    requires id in t
    ensures J.RunningSet(t, id) == t[id := t[id].(state := MarkedRunning(t[id].state))]
    ensures var row := J.StateSet(t, id, value, exitCode, reason, complete)[id];
      && row.state == value && row.exitCode == exitCode && row.reason == reason
      && row.log == t[id].log.(complete := if complete == None then t[id].log.complete else complete == Some(true))
    ensures J.StateSet(t, id, value, exitCode, reason, complete) - {id} == t - {id}
  {
    assert t[id := t[id]] == t;
  }

  function StartFailed(g: Shared): (Shared, Pc) { (g, Look(ForCleanup(StartCall))) }

  predicate IsReadinessPc(pc: Pc) { pc.Probe? || pc.CheckExit? || pc.Resize? || pc.Recheck? }

  // The steps of the start call up to the state Running, or to its failure.
  function ReadinessStep(g: Shared, pc: Pc, choice: Choice, fault: bool): (next: (Shared, Pc))
    requires IsReadinessPc(pc)
    ensures next.0.owner == g.owner && next.0.background == g.background && !next.1.Holding? && !InBackground(next.1) && next.0.settled == g.settled && next.0.journal == g.journal
  {
    match pc
    case Probe =>
      (match choice
       case Fail => StartFailed(g)
       case Stop => (g, Guard)
       case Go => (g, if IsTerminal(g.life) then MarkRunning else CheckExit))
    case CheckExit => (g, if !fault && g.journal == J.Exited then MarkRunning else Resize)
    case Resize =>
      (match choice
       case Fail => (g, Recheck)
       case Stop => (g, Guard)
       case Go => if g.life == Starting then (Moved(g, Running), MarkRunning) else StartFailed(g))
    case Recheck =>
      if choice == Stop then (g, Guard)
      else if !fault && g.journal == J.Exited then (g, MarkRunning)
      else StartFailed(g)
  }

  function StartStep(g: Shared, pc: Pc, choice: Choice, fault: bool): (next: (Shared, Pc))
    requires IsStartPc(pc)
    ensures next.0.owner == g.owner && next.0.background == g.background && !next.1.Holding? && !InBackground(next.1) && next.0.settled == g.settled
    ensures !IsReadinessPc(pc) ==> next.0.life == g.life
  {
    if IsReadinessPc(pc) then ReadinessStep(g, pc, choice, fault)
    else match pc
      case MarkRunning =>
      if fault then (g, Guard)
      else (g.(journal := MarkedRunning(g.journal)), Done)
    case Guard => (g, if IsTerminal(g.life) then Done else Look(ForDrop))
    case FailedStart => (Stored(g, J.Terminated, fault), Done)
  }

  function AfterBegin(use: Use): Pc {
    match use
    case ForCleanup(_) => Announce(use)
    case ForTerminate => Announce(use)
    case ForDrain => Record
    case ForDrop => Spawn
  }

  predicate IsBeginPc(pc: Pc) { pc.Ask? || pc.Look? || pc.Flag? || pc.Shift? || pc.Announce? }

  function BeginStep(g: Shared, pc: Pc, fault: bool): (next: (Shared, Pc))
    requires IsBeginPc(pc)
    ensures next.0.settled == g.settled
    ensures next.0.owner == g.owner && next.0.background == g.background && !next.1.Holding? && !InBackground(next.1)
  {
    match pc
    case Ask => (g, if IsTerminal(g.life) then Returned(Client, true) else Look(ForTerminate))
    case Look(use) =>
      if !IsTerminal(g.life) then (g, Flag(g.life, use))
      else (g, match use
               case ForCleanup(caller) => Returned(caller, true)
               case ForTerminate => Announce(use)   // terminate ignores what begin_termination answers
               case ForDrain => Record
               case ForDrop => Spawn)
    case Flag(seen, use) => (g.(requested := true), Shift(seen, use))
    case Shift(seen, use) =>
      (if seen in {Starting, Running, Unrecoverable} then Moved(g, Terminating) else g, AfterBegin(use))
    case Announce(use) =>
      (Stored(g, J.Terminating, fault), if use.ForCleanup? then Loop(use.caller) else Look(ForCleanup(Client)))
  }

  /** Run in one go, the steps of begin_termination do what the method does. */
  lemma {:induction false} UninterruptedBegin(g: Shared, use: Use, fault: bool)
    requires !IsTerminal(g.life)
    ensures var (g1, pc1) := BeginStep(g, Look(use), fault);
      IsBeginPc(pc1) &&
      var (g2, pc2) := BeginStep(g1, pc1, fault);
      IsBeginPc(pc2) &&
      BeginStep(g2, pc2, fault) ==
        (g.(requested := true, life := NextState(g.life, Terminating)), AfterBegin(use))
  {
  }

  predicate IsCleanupPc(pc: Pc) { pc.Loop? || pc.Overdue? || pc.GaveUp? || pc.Returned? }
  predicate IsAttemptPc(pc: Pc) { pc.Attempt? || pc.Claim? || pc.Holding? || pc.Spawn? || pc.Background? || pc.Leaving? }

  // The persistent background cleanup, and cleanup_attempt; its claim is released by dropping it, also when a timeout cuts the attempt short.
  function AttemptStep(g: Shared, pc: Pc): (next: (Shared, Pc))
    requires IsAttemptPc(pc)
    ensures next.0.settled == g.settled && next.0.life == g.life && next.0.journal == g.journal
    ensures pc.Holding? ==> !next.1.Holding? && !next.0.owner
    ensures next.1.Holding? ==> !g.owner && next.0.owner
    ensures !pc.Holding? && !next.1.Holding? ==> next.0.owner == g.owner
  {
    match pc
    case Attempt(back) => (g, if IsTerminal(g.life) then Back(back) else Claim(back))
    case Claim(back) => if g.owner then (g, Back(back)) else (g.(owner := true), Holding(back))
    case Holding(back) => (g.(owner := false), Back(back))
    case Spawn => if g.background then (g, Done) else (g.(background := true), Background)
    case Background => (g, if IsTerminal(g.life) then Leaving else Attempt(None))
    case Leaving => (g.(background := false), Done)
  }

  // A start call that is cancelled in here drops its guard; any other call is then just not continued.
  function CleanupStep(g: Shared, pc: Pc, choice: Choice, fault: bool): (next: (Shared, Pc))
    requires IsCleanupPc(pc)
    ensures next.0.settled == g.settled
    ensures next.0.owner == g.owner && next.0.background == g.background && !next.1.Holding? && !InBackground(next.1)
  {
    match pc
    case Loop(caller) =>
      if IsTerminal(g.life) then (g, Returned(caller, true))
      else if choice == Stop then (g, Overdue(caller))
      else if choice == Fail && caller == StartCall then (g, Guard)
      else (g, Attempt(Some(caller)))
    case Overdue(caller) => (Moved(g, Unrecoverable), GaveUp(caller))
    case GaveUp(caller) => (Stored(g, J.Unrecoverable, fault), Returned(caller, false))
    case Returned(caller, cleaned) =>
      if caller == StartCall && cleaned && choice == Fail then (g, Guard)
      else if caller == StartCall then (if cleaned then g.(removed := true) else g, FailedStart)
      else (g, if cleaned then Done else Spawn)
  }

  function DrainStep(g: Shared, pc: Pc, choice: Choice, fault: bool): (next: (Shared, Pc))
    requires IsDrainPc(pc)
    ensures next.0.settled == g.settled && next.0.life == g.life
    ensures next.0.owner == g.owner && next.0.background == g.background && !next.1.Holding? && !InBackground(next.1)
  {
    match pc
    case Draining =>
      (match choice
       case Go => (g.(drained := true), Done)
       case Fail => (g, Look(ForDrain))
       case Stop => (g.(drained := true, panicked := true), Done))
    case Record => (g, RecordAs(StoredAs(g.life)))
    case RecordAs(value) => (Stored(g, value, fault).(drained := true), Done)
  }

  function MonitorStep(g: Shared, pc: Pc, fault: bool): (next: (Shared, Pc))
    requires IsMonitorPc(pc)
    ensures !pc.Finish? ==> next.0.life == g.life
    ensures next.0.owner == g.owner && next.0.background == g.background && !next.1.Holding? && !InBackground(next.1)
  {
    match pc
    case Waiting =>
      if !g.drained then (g, Waiting)
      else (g, if g.panicked then PanicAs(StoredAs(g.life)) else Decide)
    case PanicAs(value) => (Stored(g, value, fault), Decide)
    case Decide => (g, Journal(if g.requested then Terminated else Exited))
    case Journal(final) => (Stored(g, StoredAs(final), fault).(settled := !fault), Complete(final))
    case Complete(final) => (g.(completed := true), Finish(final))
    case Finish(final) => (Moved(g, final), Done)
  }

  predicate IsStartPc(pc: Pc) { 
    pc.Probe? || pc.CheckExit? || pc.Resize? || pc.Recheck? || pc.MarkRunning? || pc.Guard? || pc.FailedStart?
  }
  predicate IsDrainPc(pc: Pc) { pc.Draining? || pc.Record? || pc.RecordAs? }
  predicate IsMonitorPc(pc: Pc) {
    pc.Waiting? || pc.PanicAs? || pc.Decide? || pc.Journal? || pc.Complete? || pc.Finish?
  }

  function TaskStep(g: Shared, pc: Pc, choice: Choice, fault: bool): (Shared, Pc) {
    if IsStartPc(pc) then StartStep(g, pc, choice, fault)
    else if IsDrainPc(pc) then DrainStep(g, pc, choice, fault)
    else if IsMonitorPc(pc) then MonitorStep(g, pc, fault)
    else if IsBeginPc(pc) then BeginStep(g, pc, fault)
    else if IsCleanupPc(pc) then CleanupStep(g, pc, choice, fault)
    else if IsAttemptPc(pc) then AttemptStep(g, pc)
    else (g, Done)
  }

  function Next(s: State, step: Step): State {
    match step
    case Terminate(t) => if t in s.tasks then s else s.(tasks := s.tasks[t := Ask])
    case Expire(t) => if t in s.tasks then s else s.(tasks := s.tasks[t := Look(ForCleanup(Client))])
    case SpawnCleanup(t) => if t in s.tasks then s else s.(tasks := s.tasks[t := Spawn])
    case Run(t, choice, fault) =>
      if t !in s.tasks then s
      else var (g, pc) := TaskStep(s.g, s.tasks[t], choice, fault); State(g, s.tasks[t := pc])
  }

  function After(steps: seq<Step>): State {
    if steps == [] then INITIAL else Next(After(steps[..|steps| - 1]), steps[|steps| - 1])
  }

  // ---------------------------------------------------------------------------------------------
  // What every step keeps.

  ghost predicate SharedOk(g: Shared) {
    && g.entered <= 1 && (g.life == Starting ==> g.entered == 0)
    && (IsTerminal(g.life) ==> g.completed)
    && (g.life == Terminated ==> g.requested)
    && (g.removed ==> IsTerminal(g.life))
    && (g.settled ==> g.drained && g.journal != J.Starting && g.journal != J.Running)
  }

  ghost predicate Deserved(g: Shared, final: LifecycleState) {
    IsTerminal(final) && (final == Terminated ==> g.requested)
  }

  // What a task may rely on where it stands.
  ghost predicate PcOk(g: Shared, t: TaskId, pc: Pc) {
    match pc
    case Look(use) => use.ForDrain? ==> t == DRAIN && !g.drained
    case Flag(seen, use) => (Alive(g.life) ==> Alive(seen)) && (use.ForDrain? ==> t == DRAIN && !g.drained)
    case Shift(seen, use) =>
      g.requested && (Alive(g.life) ==> Alive(seen)) && (use.ForDrain? ==> t == DRAIN && !g.drained)
    case Announce(use) => !Alive(g.life)
    case Leaving => IsTerminal(g.life)
    case Returned(_, cleaned) => cleaned ==> IsTerminal(g.life)
    case Draining => t == DRAIN && !g.drained
    case Record => t == DRAIN && !g.drained && !Alive(g.life)
    case RecordAs(value) => t == DRAIN && !g.drained && value != J.Running
    case Waiting => t == MONITOR && !g.completed && !g.settled
    case PanicAs(_) => t == MONITOR && !g.completed && !g.settled && g.drained
    case Decide => t == MONITOR && !g.completed && !g.settled && g.drained
    case Journal(final) => t == MONITOR && !g.completed && !g.settled && g.drained && Deserved(g, final)
    case Complete(final) => t == MONITOR && !g.completed && Deserved(g, final)
    case Finish(final) => t == MONITOR && g.completed && Deserved(g, final)
    case _ => true
  }

  ghost predicate PcsOk(g: Shared, tasks: map<TaskId, Pc>) {
    forall t :: t in tasks ==> PcOk(g, t, tasks[t])
  }

  ghost predicate OneHolder(owner: bool, tasks: map<TaskId, Pc>) {
    && (owner <==> exists t :: t in tasks && tasks[t].Holding?)
    && (forall t, u :: t in tasks && u in tasks && tasks[t].Holding? && tasks[u].Holding? ==> t == u)
  }

  ghost predicate Inv(s: State) { SharedOk(s.g) && PcsOk(s.g, s.tasks) && OneHolder(s.g.owner, s.tasks) }

  // How the shared state may develop, whoever moves it.
  ghost predicate Forward(g: Shared, g': Shared) {
    && (IsTerminal(g.life) ==> g'.life == g.life)
    && (Alive(g'.life) ==> Alive(g.life))
    && (g'.life == Starting ==> g.life == Starting)
    && (g'.life == Running && g.life != Running ==> g.life == Starting)
    && (g.requested ==> g'.requested)
    && (g.completed ==> g'.completed) && (g.settled ==> g'.settled) && (g.drained ==> g'.drained)
    && g.entered <= g'.entered
  }

  ghost predicate Sound(g: Shared, t: TaskId, next: (Shared, Pc)) {
    var (g', pc') := next;
    && SharedOk(g') && PcOk(g', t, pc') && Forward(g, g')
    && (g'.completed != g.completed || g'.settled != g.settled ==> t == MONITOR)
    && (g'.drained != g.drained ==> t == DRAIN)
  }

  lemma {:induction false} ReadinessIsSound(g: Shared, t: TaskId, pc: Pc, choice: Choice, fault: bool)
    requires SharedOk(g) && PcOk(g, t, pc) && IsReadinessPc(pc)
    ensures Sound(g, t, ReadinessStep(g, pc, choice, fault))
  {
  }

  lemma {:induction false} StartStepIsSound(g: Shared, t: TaskId, pc: Pc, choice: Choice, fault: bool)
    requires SharedOk(g) && PcOk(g, t, pc) && IsStartPc(pc)
    ensures Sound(g, t, StartStep(g, pc, choice, fault))
  {
    if IsReadinessPc(pc) {
      ReadinessIsFirst(g, pc, choice, fault);
      hide StartStep, Sound;
      ReadinessIsSound(g, t, pc, choice, fault);
    } else {
      hide ReadinessStep;
    }
  }

  lemma {:induction false} DrainStepIsSound(g: Shared, t: TaskId, pc: Pc, choice: Choice, fault: bool)
    requires SharedOk(g) && PcOk(g, t, pc) && IsDrainPc(pc)
    ensures Sound(g, t, DrainStep(g, pc, choice, fault))
  {
  }

  lemma {:induction false} MonitorStepIsSound(g: Shared, t: TaskId, pc: Pc, fault: bool)
    requires SharedOk(g) && PcOk(g, t, pc) && IsMonitorPc(pc)
    ensures Sound(g, t, MonitorStep(g, pc, fault))
  {
  }

  lemma {:induction false} AskingIsSound(g: Shared, t: TaskId, pc: Pc, fault: bool)
    requires SharedOk(g) && PcOk(g, t, pc) && (pc.Ask? || pc.Look? || pc.Flag?)
    ensures Sound(g, t, BeginStep(g, pc, fault))
  {
    hide Moved, Stored, StoredAs;
  }

  lemma {:induction false} ShiftingIsSound(g: Shared, t: TaskId, pc: Pc, fault: bool)
    requires SharedOk(g) && PcOk(g, t, pc) && pc.Shift?
    ensures Sound(g, t, BeginStep(g, pc, fault))
  {
    hide Stored, StoredAs;
  }

  lemma {:induction false} AnnouncingIsSound(g: Shared, t: TaskId, pc: Pc, fault: bool)
    requires SharedOk(g) && PcOk(g, t, pc) && pc.Announce?
    ensures Sound(g, t, BeginStep(g, pc, fault))
  {
    hide Moved, StoredAs;
  }

  lemma {:induction false} BeginStepIsSound(g: Shared, t: TaskId, pc: Pc, fault: bool)
    requires SharedOk(g) && PcOk(g, t, pc) && IsBeginPc(pc)
    ensures Sound(g, t, BeginStep(g, pc, fault))
  {
    hide BeginStep, Sound, SharedOk, PcOk;
    if pc.Ask? || pc.Look? || pc.Flag? {
      AskingIsSound(g, t, pc, fault);
    } else if pc.Announce? {
      AnnouncingIsSound(g, t, pc, fault);
    } else {
      ShiftingIsSound(g, t, pc, fault);
    }
  }

  lemma {:induction false} LoopStepIsSound(g: Shared, t: TaskId, caller: Caller, choice: Choice, fault: bool)
    requires SharedOk(g)
    ensures Sound(g, t, CleanupStep(g, Loop(caller), choice, fault))
  {
  }

  lemma {:induction false} EndOfLoopIsSound(g: Shared, t: TaskId, pc: Pc, choice: Choice, fault: bool)
    requires SharedOk(g) && PcOk(g, t, pc) && (pc.Overdue? || pc.GaveUp? || pc.Returned?)
    ensures Sound(g, t, CleanupStep(g, pc, choice, fault))
  {
  }

  lemma {:induction false} CleanupStepIsSound(g: Shared, t: TaskId, pc: Pc, choice: Choice, fault: bool)
    requires SharedOk(g) && PcOk(g, t, pc)
    requires IsCleanupPc(pc)
    ensures Sound(g, t, CleanupStep(g, pc, choice, fault))
  {
    hide CleanupStep, Sound, SharedOk, PcOk;
    if pc.Loop? {
      LoopStepIsSound(g, t, pc.caller, choice, fault);
    } else {
      EndOfLoopIsSound(g, t, pc, choice, fault);
    }
  }

  lemma {:induction false} AttemptStepIsSound(g: Shared, t: TaskId, pc: Pc)
    requires SharedOk(g) && PcOk(g, t, pc) && IsAttemptPc(pc)
    ensures Sound(g, t, AttemptStep(g, pc))
  {
  }

  lemma {:induction false} OthersStayOk(g: Shared, g': Shared, t: TaskId, u: TaskId, pc: Pc)
    requires PcOk(g, u, pc) && Forward(g, g') && u != t
    requires g'.completed != g.completed || g'.settled != g.settled ==> t == MONITOR
    requires g'.drained != g.drained ==> t == DRAIN
    ensures PcOk(g', u, pc)
  {
  }

  lemma {:induction false} TaskStepIsSound(g: Shared, t: TaskId, pc: Pc, choice: Choice, fault: bool)
    requires SharedOk(g) && PcOk(g, t, pc)
    ensures Sound(g, t, TaskStep(g, pc, choice, fault))
  {
    hide StartStep, DrainStep, MonitorStep, BeginStep, CleanupStep, AttemptStep;
    if IsStartPc(pc) {
      StartStepIsSound(g, t, pc, choice, fault);
    } else if IsDrainPc(pc) {
      DrainStepIsSound(g, t, pc, choice, fault);
    } else if IsMonitorPc(pc) {
      MonitorStepIsSound(g, t, pc, fault);
    } else if IsBeginPc(pc) {
      BeginStepIsSound(g, t, pc, fault);
    } else if IsCleanupPc(pc) {
      CleanupStepIsSound(g, t, pc, choice, fault);
    } else if IsAttemptPc(pc) {
      AttemptStepIsSound(g, t, pc);
    }
  }

  lemma {:induction false} ClaimFollowsFlag(g: Shared, pc: Pc, choice: Choice, fault: bool)
    ensures var (g', pc') := TaskStep(g, pc, choice, fault);
      && (pc.Holding? ==> !pc'.Holding? && !g'.owner)
      && (pc'.Holding? ==> !g.owner && g'.owner)
      && (!pc.Holding? && !pc'.Holding? ==> g'.owner == g.owner)
  {
    hide StartStep, DrainStep, MonitorStep, BeginStep, CleanupStep, AttemptStep;
  }

  lemma {:induction false} ClaimsAreExclusive(g: Shared, tasks: map<TaskId, Pc>, t: TaskId, choice: Choice, fault: bool)
    requires OneHolder(g.owner, tasks) && t in tasks
    ensures var (g', pc') := TaskStep(g, tasks[t], choice, fault); OneHolder(g'.owner, tasks[t := pc'])
  {
    var (g', pc') := TaskStep(g, tasks[t], choice, fault);
    ClaimFollowsFlag(g, tasks[t], choice, fault);
    hide TaskStep;
    HolderMoves(g.owner, g'.owner, tasks, t, pc');
  }

  lemma {:induction false} HolderMoves(owner: bool, owner': bool, tasks: map<TaskId, Pc>, t: TaskId, pc': Pc)
    requires OneHolder(owner, tasks) && t in tasks
    requires tasks[t].Holding? ==> !pc'.Holding? && !owner'
    requires pc'.Holding? ==> !owner && owner'
    requires !tasks[t].Holding? && !pc'.Holding? ==> owner' == owner
    ensures OneHolder(owner', tasks[t := pc'])
  {
    var after := tasks[t := pc'];
    if owner && !tasks[t].Holding? {
      var h :| h in tasks && tasks[h].Holding?;
      assert after[h].Holding?;
    }
    if pc'.Holding? {
      assert after[t].Holding?;
    }
  }

  lemma {:induction false} StepKeepsInv(s: State, step: Step)
    requires Inv(s)
    ensures Inv(Next(s, step)) && Forward(s.g, Next(s, step).g)
  {
    hide TaskStep, SharedOk, PcOk, OneHolder;
    var s' := Next(s, step);
    match step
    case Terminate(t) =>
      if t !in s.tasks {
        NewcomerIsOk(s.g, s.tasks, t, Ask);
      }
    case Expire(t) =>
      if t !in s.tasks {
        NewcomerIsOk(s.g, s.tasks, t, Look(ForCleanup(Client)));
      }
    case SpawnCleanup(t) =>
      if t !in s.tasks {
        NewcomerIsOk(s.g, s.tasks, t, Spawn);
      }
    case Run(t, choice, fault) =>
      if t in s.tasks {
        TaskStepIsSound(s.g, t, s.tasks[t], choice, fault);
        ClaimsAreExclusive(s.g, s.tasks, t, choice, fault);
        forall u | u in s'.tasks ensures PcOk(s'.g, u, s'.tasks[u]) {
          if u != t {
            OthersStayOk(s.g, s'.g, t, u, s.tasks[u]);
          }
        }
      }
  }

  lemma {:induction false} NewcomerIsOk(g: Shared, tasks: map<TaskId, Pc>, t: TaskId, pc: Pc)
    requires OneHolder(g.owner, tasks) && t !in tasks && (pc == Ask || pc == Look(ForCleanup(Client)) || pc == Spawn)
    ensures OneHolder(g.owner, tasks[t := pc]) && PcOk(g, t, pc)
  {
    if g.owner {
      var h :| h in tasks && tasks[h].Holding?;
      assert tasks[t := pc][h].Holding?;
    }
  }

  lemma {:induction false} InvAlways(steps: seq<Step>)
    ensures Inv(After(steps))
  {
    if steps != [] {
      InvAlways(steps[..|steps| - 1]);
      StepKeepsInv(After(steps[..|steps| - 1]), steps[|steps| - 1]);
    }
  }

  lemma {:induction false} AfterOneMore(steps: seq<Step>, step: Step)
    ensures After(steps + [step]) == Next(After(steps), step)
  {
    assert (steps + [step])[..|steps|] == steps;
  }

  // ---------------------------------------------------------------------------------------------
  // What holds in every interleaving.

  /** Between any two moments: a terminal state never changes again, a session that has left Starting, or both
      Starting and Running, never comes back to them, and Running is entered at most once, from Starting.
      Terminating and Unrecoverable may alternate until a terminal state is reached. */
  lemma {:induction false} LifecycleOnlyGoesForward(steps: seq<Step>, more: seq<Step>)
    ensures var before, after := After(steps).g, After(steps + more).g;
      && (IsTerminal(before.life) ==> after.life == before.life)
      && (Alive(after.life) ==> Alive(before.life))
      && (after.life == Starting ==> before.life == Starting)
      && (before.completed ==> after.completed) && (before.settled ==> after.settled)
      && before.entered <= after.entered <= 1
  {
    hide TaskStep, PcsOk, OneHolder;
    InvAlways(steps);
    if more == [] {
      assert steps + more == steps;
    } else {
      var past, step := more[..|more| - 1], more[|more| - 1];
      assert steps + more == (steps + past) + [step];
      LifecycleOnlyGoesForward(steps, past);
      InvAlways(steps + past);
      InvAlways(steps + more);
      StepKeepsInv(After(steps + past), step);
      AfterOneMore(steps + past, step);
    }
  }

  /** At most one cleanup attempt holds the termination claim, and the flag says whether one does. */
  lemma {:induction false} OneCleanupHoldsTheClaim(steps: seq<Step>, t: TaskId, u: TaskId)
    requires var s := After(steps); t in s.tasks && u in s.tasks && s.tasks[t].Holding? && s.tasks[u].Holding?
    ensures t == u && After(steps).g.owner
  {
    hide TaskStep, SharedOk, PcsOk;
    InvAlways(steps);
  }

  /** A terminal state is reached only after the monitor has completed the session in the registry; the
      session counts as terminated only if somebody asked for it; and a cleanup that reports success, or a
      failed start that removes the record, sees a terminal state. */
  lemma {:induction false} TerminalIsDeserved(steps: seq<Step>, t: TaskId)
    ensures var g := After(steps).g;
      && (IsTerminal(g.life) ==> g.completed)
      && (g.life == Terminated ==> g.requested)
      && (g.removed ==> IsTerminal(g.life))
    ensures t in After(steps).tasks && After(steps).tasks[t].Returned? && After(steps).tasks[t].cleaned ==>
      IsTerminal(After(steps).g.life)
  {
    hide TaskStep, OneHolder;
    InvAlways(steps);
  }

  /** Once the monitor's final state has reached the journal, no task, a late start included, ever turns
      the record back to RUNNING. */
  lemma {:induction false} SettledRecordIsNeverRunningAgain(steps: seq<Step>, more: seq<Step>)
    requires After(steps).g.settled
    ensures After(steps + more).g.journal != J.Starting && After(steps + more).g.journal != J.Running
  {
    hide TaskStep, PcsOk, OneHolder;
    LifecycleOnlyGoesForward(steps, more);
    InvAlways(steps + more);
  }

  /** The start call's own late `set_running` changes only a record that is still STARTING or RUNNING. */
  lemma {:induction false} LateSetRunningRespectsOthers(steps: seq<Step>, t: TaskId, choice: Choice, fault: bool)
    requires t in After(steps).tasks && After(steps).tasks[t].MarkRunning?
    ensures var g, g' := After(steps).g, Next(After(steps), Run(t, choice, fault)).g;
      g'.journal != g.journal ==> g.journal == J.Starting && g'.journal == J.Running && !g.settled
  {
    hide PcsOk, OneHolder;
    InvAlways(steps);
  }

  // ---------------------------------------------------------------------------------------------
  // How a session ends.

  // What the monitor decided, if it has: whether termination had been requested by then.
  function Decision(steps: seq<Step>): Option<LifecycleState> {
    if steps == [] then None
    else
      var s, step := After(steps[..|steps| - 1]), steps[|steps| - 1];
      if step.Run? && step.t == MONITOR && MONITOR in s.tasks && s.tasks[MONITOR].Decide?
      then Some(if s.g.requested then Terminated else Exited)
      else Decision(steps[..|steps| - 1])
  }

  // What the place of the monitor tells about its decision and the state.
  predicate Tells(pc: Pc, decision: Option<LifecycleState>, life: LifecycleState) {
    match pc
    case Waiting => decision.None? && !IsTerminal(life)
    case PanicAs(_) => decision.None? && !IsTerminal(life)
    case Decide => decision.None? && !IsTerminal(life)
    case Journal(final) => decision == Some(final) && !IsTerminal(life)
    case Complete(final) => decision == Some(final) && !IsTerminal(life)
    case Finish(final) => decision == Some(final) && !IsTerminal(life)
    case Done => decision == Some(life) && IsTerminal(life)
    case _ => false
  }

  lemma {:induction false} MonitorTells(steps: seq<Step>)
    ensures MONITOR in After(steps).tasks && Tells(After(steps).tasks[MONITOR], Decision(steps), After(steps).g.life)
  {
    if steps != [] {
      var past, step := steps[..|steps| - 1], steps[|steps| - 1];
      MonitorTells(past);
      InvAlways(past);
      var s := After(past);
      hide After, SharedOk, OneHolder;
      if step.Run? && step.t in s.tasks {
        hide TaskStep;
        if step.t == MONITOR {
          MonitorStepTells(s.g, s.tasks[MONITOR], Decision(past), step.choice, step.fault);
        } else {
          OthersNeverEnd(s.g, step.t, s.tasks[step.t], step.choice, step.fault);
        }
        hide PcOk;
      }
    }
  }

  lemma {:induction false} MonitorStepTells(g: Shared, pc: Pc, decision: Option<LifecycleState>, choice: Choice, fault: bool)
    requires Tells(pc, decision, g.life) && PcOk(g, MONITOR, pc)
    ensures var (g', pc') := TaskStep(g, pc, choice, fault);
      Tells(pc', if pc.Decide? then Some(if g.requested then Terminated else Exited) else decision, g'.life)
  {
    hide StartStep, DrainStep, BeginStep, CleanupStep, AttemptStep, StoredAs;
    if pc.Done? {
      assert TaskStep(g, pc, choice, fault) == (g, Done);
    } else if pc.Finish? {
      FinishEnds(g, pc.final, fault);
    } else {
      MonitorGoesOn(g, pc, fault);
      hide MonitorStep;
    }
  }

  lemma {:induction false} MonitorGoesOn(g: Shared, pc: Pc, fault: bool)
    requires IsMonitorPc(pc) && !pc.Finish?
    ensures var pc' := MonitorStep(g, pc, fault).1;
      match pc
      case Waiting => pc'.Waiting? || pc'.PanicAs? || pc'.Decide?
      case PanicAs(_) => pc'.Decide?
      case Decide => pc' == Journal(if g.requested then Terminated else Exited)
      case Journal(final) => pc' == Complete(final)
      case Complete(final) => pc' == Finish(final)
  {
    hide StoredAs, NextState, Stored;
  }

  lemma {:induction false} FinishEnds(g: Shared, final: LifecycleState, fault: bool)
    requires !IsTerminal(g.life) && IsTerminal(final)
    ensures MonitorStep(g, Finish(final), fault) == (Moved(g, final), Done) && Moved(g, final).life == final
  {
  }

  lemma {:induction false} NoEnd(current: LifecycleState, next: LifecycleState)
    requires !IsTerminal(next)
    ensures if IsTerminal(current) then NextState(current, next) == current else !IsTerminal(NextState(current, next))
  {
  }

  lemma {:induction false} OthersNeverEnd(g: Shared, t: TaskId, pc: Pc, choice: Choice, fault: bool)
    requires PcOk(g, t, pc) && t != MONITOR
    ensures var g' := TaskStep(g, pc, choice, fault).0;
      if IsTerminal(g.life) then g'.life == g.life else !IsTerminal(g'.life)
  {
    hide StartStep, DrainStep, MonitorStep, BeginStep, CleanupStep, AttemptStep;
    if IsStartPc(pc) {
      StartNeverEnds(g, pc, choice, fault);
    } else if IsBeginPc(pc) {
      BeginNeverEnds(g, pc, fault);
    } else if IsCleanupPc(pc) {
      CleanupNeverEnds(g, pc, choice, fault);
    }
  }

  lemma {:induction false} StartNeverEnds(g: Shared, pc: Pc, choice: Choice, fault: bool)
    requires IsStartPc(pc)
    ensures var g' := StartStep(g, pc, choice, fault).0;
      if IsTerminal(g.life) then g'.life == g.life else !IsTerminal(g'.life)
  {
    NoEnd(g.life, Running);
    hide NextState, IsTerminal;
    if !IsReadinessPc(pc) {
      hide StartStep;
    }
  }

  lemma {:induction false} BeginNeverEnds(g: Shared, pc: Pc, fault: bool)
    requires IsBeginPc(pc)
    ensures var g' := BeginStep(g, pc, fault).0;
      if IsTerminal(g.life) then g'.life == g.life else !IsTerminal(g'.life)
  {
    NoEnd(g.life, Terminating);
    hide AfterBegin, NextState, IsTerminal;
  }

  lemma {:induction false} CleanupNeverEnds(g: Shared, pc: Pc, choice: Choice, fault: bool)
    requires IsCleanupPc(pc)
    ensures var g' := CleanupStep(g, pc, choice, fault).0;
      if IsTerminal(g.life) then g'.life == g.life else !IsTerminal(g'.life)
  {
    NoEnd(g.life, Unrecoverable);
    hide NextState, IsTerminal;
  }

  /** A session that has ended is Terminated if termination had been requested when the monitor decided, and Exited
      if not; and that is what the monitor writes into the record as the final state. */
  lemma {:induction false} FinalStateIsTheDecision(steps: seq<Step>, step: Step)
    ensures IsTerminal(After(steps).g.life) ==> Decision(steps) == Some(After(steps).g.life)
    ensures !After(steps).g.settled && Next(After(steps), step).g.settled ==>
      Decision(steps).Some? && IsTerminal(Decision(steps).value)
      && Next(After(steps), step).g.journal == StoredAs(Decision(steps).value)
  {
    MonitorTells(steps);
    InvAlways(steps);
    var s := After(steps);
    hide After, SharedOk, OneHolder;
    if step.Run? && step.t in s.tasks && !s.g.settled {
      SettlesAsTold(s.g, step.t, s.tasks[step.t], step.choice, step.fault);
      hide TaskStep;
    }
  }

  lemma {:induction false} SettlesAsTold(g: Shared, t: TaskId, pc: Pc, choice: Choice, fault: bool)
    requires PcOk(g, t, pc) && !g.settled
    ensures TaskStep(g, pc, choice, fault).0.settled ==>
      t == MONITOR && pc.Journal? && IsTerminal(pc.final) && TaskStep(g, pc, choice, fault).0.journal == StoredAs(pc.final)
  {
    hide StoredAs, StartStep, DrainStep, BeginStep, CleanupStep, AttemptStep, MonitorStep;
    if IsMonitorPc(pc) {
      MonitorSettles(g, pc, fault);
    }
  }

  lemma {:induction false} MonitorSettles(g: Shared, pc: Pc, fault: bool)
    requires IsMonitorPc(pc) && !g.settled
    ensures MonitorStep(g, pc, fault).0.settled ==> pc.Journal? && MonitorStep(g, pc, fault).0.journal == StoredAs(pc.final)
  {
    hide StoredAs, NextState;
  }

  /** Once termination is requested before the monitor decides, in every continuation the session never counts as
      exited, and a final state that is settled is settled as TERMINATED. */
  lemma {:induction false} RequestedEndsTerminated(steps: seq<Step>, more: seq<Step>, step: Step)
    requires After(steps).g.requested && Decision(steps).None?
    ensures After(steps + more).g.life != Exited && Decision(steps + more) in {None, Some(Terminated)}
    ensures var s := After(steps + more); !s.g.settled && Next(s, step).g.settled ==> Next(s, step).g.journal == J.Terminated
  {
    DecidesTerminated(steps, more);
    FinalStateIsTheDecision(steps + more, step);
    hide After, Next;
  }

  lemma {:induction false} DecidesTerminated(steps: seq<Step>, more: seq<Step>)
    requires After(steps).g.requested && Decision(steps).None?
    ensures After(steps + more).g.requested && Decision(steps + more) in {None, Some(Terminated)}
  {
    if more == [] {
      assert steps + more == steps;
    } else {
      var past, step := more[..|more| - 1], more[|more| - 1];
      assert (steps + more)[..|steps + more| - 1] == steps + past;
      assert steps + more == (steps + past) + [step];
      DecidesTerminated(steps, past);
      InvAlways(steps + past);
      StepKeepsInv(After(steps + past), step);
      AfterOneMore(steps + past, step);
      hide Inv, Next;
    }
  }

  /** A start that nobody disturbs ends with a running session and a record that says so. */
  lemma {:induction false} QuietStartRuns(s: State)
    requires START in s.tasks && s.tasks[START] == Probe && s.g.life == Starting && s.g.journal == J.Starting
    ensures var run := Run(START, Go, false);
      Next(Next(Next(Next(s, run), run), run), run) ==
        State(s.g.(life := Running, entered := s.g.entered + 1, journal := J.Running), s.tasks[START := Done])
  {
    hide InBackground;
    var g, run := s.g, Run(START, Go, false);
    var probed, seen := State(g, s.tasks[START := CheckExit]), State(g, s.tasks[START := Resize]);
    var resized := State(g.(life := Running, entered := g.entered + 1), s.tasks[START := MarkRunning]);
    StartSteps(g);
    hide TaskStep;
    assert Next(s, run) == probed && Next(probed, run) == seen && Next(seen, run) == resized;
  }

  lemma {:induction false} StartSteps(g: Shared)
    requires g.life == Starting && g.journal == J.Starting
    ensures TaskStep(g, Probe, Go, false) == (g, CheckExit) && TaskStep(g, CheckExit, Go, false) == (g, Resize)
    ensures TaskStep(g, Resize, Go, false) == (g.(life := Running, entered := g.entered + 1), MarkRunning)
    ensures TaskStep(g.(life := Running, entered := g.entered + 1), MarkRunning, Go, false) ==
      (g.(life := Running, entered := g.entered + 1, journal := J.Running), Done)
  {
    hide InBackground;
    hide DrainStep, MonitorStep, BeginStep, CleanupStep, AttemptStep;
  }

  /** A terminate call that nobody disturbs marks the session and its record, unless the session has ended. */
  lemma {:induction false} QuietRequestIsRecorded(s: State, t: TaskId)
    requires t in s.tasks && s.tasks[t] == Ask && !IsTerminal(s.g.life)
    ensures var run := Run(t, Go, false);
      Next(Next(Next(Next(Next(s, run), run), run), run), run) ==
        State(s.g.(requested := true, life := Terminating, journal := J.Terminating), s.tasks[t := Look(ForCleanup(Client))])
  {
    hide InBackground;
    var g, run := s.g, Run(t, Go, false);
    var looked, flagged := State(g, s.tasks[t := Look(ForTerminate)]), State(g, s.tasks[t := Flag(g.life, ForTerminate)]);
    var shifted := State(g.(requested := true), s.tasks[t := Shift(g.life, ForTerminate)]);
    var announced := State(g.(requested := true, life := Terminating), s.tasks[t := Announce(ForTerminate)]);
    RequestSteps(g);
    AnnouncingStep(announced.g);
    hide TaskStep;
    assert Next(s, run) == looked && Next(looked, run) == flagged;
    assert Next(flagged, run) == shifted && Next(shifted, run) == announced;
  }

  lemma {:induction false} RequestSteps(g: Shared)
    requires !IsTerminal(g.life)
    ensures TaskStep(g, Ask, Go, false) == (g, Look(ForTerminate))
    ensures TaskStep(g, Look(ForTerminate), Go, false) == (g, Flag(g.life, ForTerminate))
    ensures TaskStep(g, Flag(g.life, ForTerminate), Go, false) == (g.(requested := true), Shift(g.life, ForTerminate))
    ensures TaskStep(g.(requested := true), Shift(g.life, ForTerminate), Go, false) ==
      (g.(requested := true, life := Terminating), Announce(ForTerminate))
  {
    hide InBackground;
    hide StartStep, DrainStep, MonitorStep, CleanupStep, AttemptStep;
  }

  // begin_termination, run in one go by task t.
  lemma {:induction false} BeginRuns(s: State, t: TaskId, use: Use)
    requires t in s.tasks && s.tasks[t] == Look(use) && !IsTerminal(s.g.life)
    ensures var run := Run(t, Go, false);
      Next(Next(Next(s, run), run), run) ==
        State(s.g.(requested := true, life := Terminating), s.tasks[t := AfterBegin(use)])
  {
    hide InBackground;
    var run := Run(t, Go, false);
    BeginSteps(s.g, use);
    hide TaskStep, AfterBegin;
    var s1 := Next(s, run);
    assert s1 == State(s.g, s.tasks[t := Flag(s.g.life, use)]);
    var s2 := Next(s1, run);
    assert s2 == State(s.g.(requested := true), s.tasks[t := Shift(s.g.life, use)]);
  }

  lemma {:induction false} BeginSteps(g: Shared, use: Use)
    requires !IsTerminal(g.life)
    ensures TaskStep(g, Look(use), Go, false) == (g, Flag(g.life, use))
    ensures TaskStep(g, Flag(g.life, use), Go, false) == (g.(requested := true), Shift(g.life, use))
    ensures TaskStep(g.(requested := true), Shift(g.life, use), Go, false) ==
      (g.(requested := true, life := Terminating), AfterBegin(use))
  {
    hide InBackground;
    hide StartStep, DrainStep, MonitorStep, CleanupStep, AttemptStep, AfterBegin;
  }

  /** A cleanup that reaches its deadline before the session has ended makes it unrecoverable, in state and record. */
  lemma {:induction false} DeadlineIsRecorded(s: State, t: TaskId, caller: Caller)
    requires t in s.tasks && s.tasks[t] == Loop(caller) && !IsTerminal(s.g.life)
    ensures Next(Next(Next(s, Run(t, Stop, false)), Run(t, Go, false)), Run(t, Go, false)) ==
      State(s.g.(life := Unrecoverable, journal := J.Unrecoverable), s.tasks[t := Returned(caller, false)])
  {
    hide InBackground;
    DeadlineSteps(s.g, caller);
    hide TaskStep;
    var s1 := Next(s, Run(t, Stop, false));
    assert s1 == State(s.g, s.tasks[t := Overdue(caller)]);
    var s2 := Next(s1, Run(t, Go, false));
    assert s2 == State(s.g.(life := Unrecoverable), s.tasks[t := GaveUp(caller)]);
  }

  lemma {:induction false} DeadlineSteps(g: Shared, caller: Caller)
    requires !IsTerminal(g.life)
    ensures TaskStep(g, Loop(caller), Stop, false) == (g, Overdue(caller))
    ensures TaskStep(g, Overdue(caller), Go, false) == (g.(life := Unrecoverable), GaveUp(caller))
    ensures TaskStep(g.(life := Unrecoverable), GaveUp(caller), Go, false) ==
      (g.(life := Unrecoverable, journal := J.Unrecoverable), Returned(caller, false))
  {
    hide InBackground;
    hide StartStep, DrainStep, MonitorStep, BeginStep, AttemptStep;
  }

  /** A drain that fails requests the termination of its session, and records it. */
  lemma {:induction false} FailedDrainTerminates(s: State)
    requires DRAIN in s.tasks && s.tasks[DRAIN] == Draining && !IsTerminal(s.g.life)
    ensures var run := Run(DRAIN, Go, false);
      Next(Next(Next(Next(Next(Next(s, Run(DRAIN, Fail, false)), run), run), run), run), run) ==
        State(s.g.(requested := true, life := Terminating, journal := J.Terminating, drained := true), s.tasks[DRAIN := Done])
  {
    hide InBackground;
    var run, g := Run(DRAIN, Go, false), s.g.(requested := true, life := Terminating);
    var failed := State(s.g, s.tasks[DRAIN := Look(ForDrain)]);
    DrainSteps(s.g);
    DrainSteps(g);
    hide TaskStep;
    assert Next(s, Run(DRAIN, Fail, false)) == failed;
    BeginRuns(failed, DRAIN, ForDrain);
    var begun := State(g, s.tasks[DRAIN := Record]);
    assert Next(Next(Next(failed, run), run), run) == begun;
    assert Next(begun, run) == State(g, s.tasks[DRAIN := RecordAs(J.Terminating)]);
  }

  lemma {:induction false} DrainSteps(g: Shared)
    ensures TaskStep(g, Draining, Fail, false) == (g, Look(ForDrain))
    ensures g.life == Terminating ==> TaskStep(g, Record, Go, false) == (g, RecordAs(J.Terminating))
    ensures TaskStep(g, RecordAs(J.Terminating), Go, false) == (g.(journal := J.Terminating, drained := true), Done)
  {
    hide InBackground;
    hide StartStep, BeginStep, MonitorStep, CleanupStep, AttemptStep;
  }

  /** A start that is cancelled where it waits requests the termination of its session and leaves it to a background
      cleanup. */
  lemma {:induction false} CancelledStartIsCleanedUp(s: State)
    requires START in s.tasks && (s.tasks[START].Probe? || s.tasks[START].Resize? || s.tasks[START].Recheck?)
    requires !IsTerminal(s.g.life) && !s.g.background
    ensures var run := Run(START, Go, false);
      Next(Next(Next(Next(Next(Next(s, Run(START, Stop, false)), run), run), run), run), run) ==
        State(s.g.(requested := true, life := Terminating, background := true), s.tasks[START := Background])
  {
    hide InBackground;
    var run := Run(START, Go, false);
    var dropped := State(s.g, s.tasks[START := Guard]);
    GuardSteps(s.g, s.tasks[START]);
    hide TaskStep;
    assert Next(s, Run(START, Stop, false)) == dropped;
    var looking := State(s.g, s.tasks[START := Look(ForDrop)]);
    assert Next(dropped, run) == looking;
    BeginRuns(looking, START, ForDrop);
    SpawnStep(s.g.(requested := true, life := Terminating));
    var begun := State(s.g.(requested := true, life := Terminating), s.tasks[START := Spawn]);
    assert Next(Next(Next(looking, run), run), run) == begun;
    hide Next, IsTerminal;
    assert Next(begun, run) == State(begun.g.(background := true), s.tasks[START := Background]) by { OneRun(begun, START, Go); }
  }

  lemma {:induction false} OneRun(s: State, t: TaskId, choice: Choice)
    requires t in s.tasks
    ensures var (g, pc) := TaskStep(s.g, s.tasks[t], choice, false);
      Next(s, Run(t, choice, false)) == State(g, s.tasks[t := pc])
  {
    hide TaskStep;
  }

  lemma {:induction false} GuardSteps(g: Shared, pc: Pc)
    requires (pc.Probe? || pc.Resize? || pc.Recheck?) && !IsTerminal(g.life)
    ensures TaskStep(g, pc, Stop, false) == (g, Guard) && TaskStep(g, Guard, Go, false) == (g, Look(ForDrop))
  {
    hide InBackground;
    hide DrainStep, BeginStep, MonitorStep, CleanupStep, AttemptStep;
  }

  lemma {:induction false} SpawnStep(g: Shared)
    requires !g.background
    ensures TaskStep(g, Spawn, Go, false) == (g.(background := true), Background)
  {
  }

  /** An attempt takes a free claim and gives it back; without a free claim, or once the session has ended, it is over. */
  lemma {:induction false} AttemptTakesFreeClaim(g: Shared, back: Option<Caller>)
    ensures AttemptStep(g, Attempt(back)) == (g, if IsTerminal(g.life) then Back(back) else Claim(back))
    ensures AttemptStep(g, Claim(back)) == (g.(owner := true), if g.owner then Back(back) else Holding(back))
    ensures AttemptStep(g, Holding(back)) == (g.(owner := false), Back(back))
  {
    assert g.owner ==> g.(owner := true) == g;
  }

  /** A cleanup that finds the session ended reports success. A failed start then forgets the session, and records the
      failure in any case; whoever else meets the deadline leaves the session to a background cleanup. */
  lemma {:induction false} CleanupIsFollowedUp(g: Shared, caller: Caller)
    ensures IsTerminal(g.life) ==> CleanupStep(g, Loop(caller), Go, false) == (g, Returned(caller, true))
    ensures CleanupStep(g, Returned(StartCall, true), Go, false) == (g.(removed := true), FailedStart)
    ensures CleanupStep(g, Returned(StartCall, false), Go, false) == (g, FailedStart)
    ensures CleanupStep(g, Returned(Client, true), Go, false) == (g, Done)
    ensures CleanupStep(g, Returned(Client, false), Go, false) == (g, Spawn)
    ensures StartStep(g, FailedStart, Go, false) == (g.(journal := J.Terminated), Done)
  {
  }

  /** A start whose command has already ended normally succeeds, and the record stays EXITED. */
  lemma {:induction false} ExitedStartSucceeds(s: State)
    requires START in s.tasks && s.g.journal == J.Exited
    requires s.tasks[START].CheckExit? || s.tasks[START].Recheck?
    ensures var run := Run(START, Go, false);
      Next(s, run) == State(s.g, s.tasks[START := MarkRunning]) && Next(Next(s, run), run) == State(s.g, s.tasks[START := Done])
  {
    hide InBackground;
    ExitedSteps(s.g, s.tasks[START]);
    hide TaskStep;
    assert s.tasks[START := MarkRunning][START := Done] == s.tasks[START := Done];
  }

  lemma {:induction false} ExitedSteps(g: Shared, pc: Pc)
    requires g.journal == J.Exited && (pc.CheckExit? || pc.Recheck?)
    ensures TaskStep(g, pc, Go, false) == (g, MarkRunning) && TaskStep(g, MarkRunning, Go, false) == (g, Done)
  {
    hide DrainStep, MonitorStep, BeginStep, CleanupStep, AttemptStep, InBackground;
  }

  /** A start cancelled while it cleans up drops its guard, also when it is about to forget the session. */
  lemma {:induction false} CancelledCleanupIsGuarded(g: Shared)
    ensures !IsTerminal(g.life) ==> CleanupStep(g, Loop(StartCall), Fail, false) == (g, Guard)
    ensures CleanupStep(g, Returned(StartCall, true), Fail, false) == (g, Guard)
  {
  }

  /** A terminate call leaves a session that has ended, and its record, as they are. */
  lemma {:induction false} EndedSessionIsLeftAlone(s: State, t: TaskId)
    requires t in s.tasks && s.tasks[t] == Ask && IsTerminal(s.g.life)
    ensures var run := Run(t, Go, false); Next(Next(s, run), run) == State(s.g, s.tasks[t := Done])
  {
    hide InBackground;
    CleanupIsFollowedUp(s.g, Client);
    EndedSteps(s.g);
    hide TaskStep;
    assert Next(s, Run(t, Go, false)) == State(s.g, s.tasks[t := Returned(Client, true)]);
  }

  lemma {:induction false} EndedSteps(g: Shared)
    requires IsTerminal(g.life)
    ensures TaskStep(g, Ask, Go, false) == (g, Returned(Client, true))
    ensures TaskStep(g, Returned(Client, true), Go, false) == (g, Done)
  {
    hide StartStep, DrainStep, MonitorStep, AttemptStep, InBackground;
  }

  // The background cleanup, wherever it stands.
  predicate InBackground(pc: Pc) {
    || pc == Attempt(None) || pc == Claim(None) || pc == Holding(None) || pc.Background? || pc.Leaving?
  }

  ghost predicate OneInBackground(background: bool, tasks: map<TaskId, Pc>) {
    && (background <==> exists t :: t in tasks && InBackground(tasks[t]))
    && (forall t, u :: t in tasks && u in tasks && InBackground(tasks[t]) && InBackground(tasks[u]) ==> t == u)
  }

  lemma {:induction false} BackgroundFollowsFlag(g: Shared, pc: Pc, choice: Choice, fault: bool)
    ensures var (g', pc') := TaskStep(g, pc, choice, fault);
      && (InBackground(pc) ==> (InBackground(pc') && g'.background == g.background) || (!InBackground(pc') && !g'.background))
      && (!InBackground(pc) && InBackground(pc') ==> !g.background && g'.background)
      && (!InBackground(pc) && !InBackground(pc') ==> g'.background == g.background)
  {
    if IsAttemptPc(pc) {
      AttemptStaysInBackground(g, pc);
      AttemptIsStepped(g, pc, choice, fault);
    } else {
      OthersStayOut(g, pc, choice, fault);
    }
    hide TaskStep, AttemptStep;
  }

  lemma {:induction false} AttemptIsStepped(g: Shared, pc: Pc, choice: Choice, fault: bool)
    requires IsAttemptPc(pc)
    ensures TaskStep(g, pc, choice, fault) == AttemptStep(g, pc)
  {
    hide AttemptStep;
  }

  lemma {:induction false} OthersStayOut(g: Shared, pc: Pc, choice: Choice, fault: bool)
    requires !IsAttemptPc(pc)
    ensures TaskStep(g, pc, choice, fault).0.background == g.background && !InBackground(TaskStep(g, pc, choice, fault).1)
  {
    assert !InBackground(Done);
    hide StartStep, DrainStep, MonitorStep, BeginStep, CleanupStep, AttemptStep, InBackground;
  }

  lemma {:induction false} AttemptStaysInBackground(g: Shared, pc: Pc)
    requires IsAttemptPc(pc)
    ensures var (g', pc') := AttemptStep(g, pc);
      && (InBackground(pc) ==> (InBackground(pc') && g'.background == g.background) || (!InBackground(pc') && !g'.background))
      && (!InBackground(pc) && InBackground(pc') ==> !g.background && g'.background)
      && (!InBackground(pc) && !InBackground(pc') ==> g'.background == g.background)
  {
    hide IsTerminal;
  }

  lemma {:induction false} BackgroundMoves(background: bool, background': bool, tasks: map<TaskId, Pc>, t: TaskId, pc': Pc)
    requires OneInBackground(background, tasks) && t in tasks
    requires InBackground(tasks[t]) ==> (InBackground(pc') && background' == background) || (!InBackground(pc') && !background')
    requires !InBackground(tasks[t]) && InBackground(pc') ==> !background && background'
    requires !InBackground(tasks[t]) && !InBackground(pc') ==> background' == background
    ensures OneInBackground(background', tasks[t := pc'])
  {
    hide InBackground;
    var after := tasks[t := pc'];
    if background && !InBackground(tasks[t]) {
      var h :| h in tasks && InBackground(tasks[h]);
      assert InBackground(after[h]);
    }
    if InBackground(pc') {
      assert InBackground(after[t]);
    }
  }

  lemma {:induction false} NewcomerIsNotInBackground(background: bool, tasks: map<TaskId, Pc>, t: TaskId, pc: Pc)
    requires OneInBackground(background, tasks) && t !in tasks && !InBackground(pc)
    ensures OneInBackground(background, tasks[t := pc])
  {
    hide InBackground;
    if background {
      var h :| h in tasks && InBackground(tasks[h]);
      assert InBackground(tasks[t := pc][h]);
    }
  }

  /** However many calls give up, at most one background cleanup runs at a time, and the flag says whether one does. */
  lemma {:induction false} OneBackgroundCleanup(steps: seq<Step>)
    ensures OneInBackground(After(steps).g.background, After(steps).tasks)
  {
    hide TaskStep, OneInBackground;
    if steps == [] {
      NobodyIsInBackground();
    } else {
      OneBackgroundCleanup(steps[..|steps| - 1]);
      var s, step := After(steps[..|steps| - 1]), steps[|steps| - 1];
      if step.Run? {
        if step.t in s.tasks {
          BackgroundFollowsFlag(s.g, s.tasks[step.t], step.choice, step.fault);
          var (g, pc) := TaskStep(s.g, s.tasks[step.t], step.choice, step.fault);
          BackgroundMoves(s.g.background, g.background, s.tasks, step.t, pc);
        }
      } else if step.t !in s.tasks {
        var pc := if step.Terminate? then Ask else if step.Expire? then Look(ForCleanup(Client)) else Spawn;
        NewcomerIsNotInBackground(s.g.background, s.tasks, step.t, pc);
      }
    }
  }

  /** A background cleanup ends only when the session has ended. */
  lemma {:induction false} BackgroundEndsWithSession(steps: seq<Step>, step: Step)
    requires After(steps).g.background && !Next(After(steps), step).g.background
    ensures IsTerminal(After(steps).g.life)
  {
    InvAlways(steps);
    hide After, SharedOk, OneHolder;
    var s := After(steps);
    if step.Run? && step.t in s.tasks {
      OnlyLeavingClears(s.g, s.tasks[step.t], step.choice, step.fault);
      hide TaskStep;
    }
  }

  lemma {:induction false} OnlyLeavingClears(g: Shared, pc: Pc, choice: Choice, fault: bool)
    requires g.background && !TaskStep(g, pc, choice, fault).0.background
    ensures pc.Leaving?
  {
    hide InBackground;
    if IsAttemptPc(pc) {
      AttemptIsStepped(g, pc, choice, fault);
      hide TaskStep;
      LeavingClears(g, pc);
    } else {
      OthersStayOut(g, pc, choice, fault);
      hide TaskStep;
    }
  }

  lemma {:induction false} LeavingClears(g: Shared, pc: Pc)
    requires IsAttemptPc(pc) && g.background && !AttemptStep(g, pc).0.background
    ensures pc.Leaving?
  {
    hide InBackground, IsTerminal, Back;
  }

  lemma {:induction false} NobodyIsInBackground()
    ensures OneInBackground(After([]).g.background, After([]).tasks)
  {
  }

  // What a task writes into the record even when the final state is there already.
  function LateWrite(pc: Pc): Option<J.StoredState> {
    match pc
    case Announce(_) => Some(J.Terminating)
    case GaveUp(_) => Some(J.Unrecoverable)
    case FailedStart => Some(J.Terminated)
    case _ => None
  }

  // A termination, a cleanup or a failed start writes its own state, and it is another one.
  predicate Overwrites(s: State, step: Step) {
    && step.Run? && !step.fault && step.t in s.tasks
    && LateWrite(s.tasks[step.t]).Some? && LateWrite(s.tasks[step.t]) != Some(s.g.journal)
  }

  lemma {:induction false} LateWriteIsAll(g: Shared, t: TaskId, pc: Pc, choice: Choice, fault: bool)
    requires SharedOk(g) && PcOk(g, t, pc) && g.settled
    ensures TaskStep(g, pc, choice, fault).0.journal == if !fault && LateWrite(pc).Some? then LateWrite(pc).value else g.journal
  {
    hide StartStep, MonitorStep, BeginStep, CleanupStep, AttemptStep, DrainStep, SharedOk, PcOk;
    if IsStartPc(pc) {
      StartWritesLate(g, pc, choice, fault);
    } else if IsMonitorPc(pc) || IsDrainPc(pc) {
      SettledIsLeftAlone(g, t, pc, choice, fault);
    } else if IsBeginPc(pc) {
      BeginWritesLate(g, pc, fault);
    } else if IsCleanupPc(pc) {
      CleanupWritesLate(g, pc, choice, fault);
    }
  }

  lemma {:induction false} StartWritesLate(g: Shared, pc: Pc, choice: Choice, fault: bool)
    requires SharedOk(g) && g.settled && IsStartPc(pc)
    ensures StartStep(g, pc, choice, fault).0.journal == if !fault && pc.FailedStart? then J.Terminated else g.journal
  {
    hide Moved, IsTerminal;
    hide ReadinessStep;
  }

  lemma {:induction false} SettledIsLeftAlone(g: Shared, t: TaskId, pc: Pc, choice: Choice, fault: bool)
    requires SharedOk(g) && PcOk(g, t, pc) && g.settled && (IsMonitorPc(pc) || IsDrainPc(pc))
    ensures IsMonitorPc(pc) ==> MonitorStep(g, pc, fault).0.journal == g.journal
    ensures IsDrainPc(pc) ==> DrainStep(g, pc, choice, fault).0.journal == g.journal
  {
    hide Moved, StoredAs, IsTerminal;
  }

  lemma {:induction false} BeginWritesLate(g: Shared, pc: Pc, fault: bool)
    requires IsBeginPc(pc)
    ensures BeginStep(g, pc, fault).0.journal == if !fault && pc.Announce? then J.Terminating else g.journal
  {
    hide Moved, IsTerminal, AfterBegin;
  }

  lemma {:induction false} CleanupWritesLate(g: Shared, pc: Pc, choice: Choice, fault: bool)
    requires IsCleanupPc(pc)
    ensures CleanupStep(g, pc, choice, fault).0.journal == if !fault && pc.GaveUp? then J.Unrecoverable else g.journal
  {
    hide CleanupStep;
    match pc
    case Loop(caller) => LoopKeepsRecord(g, caller, choice, fault);
    case Overdue(caller) => OverdueKeepsRecord(g, caller, choice, fault);
    case GaveUp(caller) => GivingUpIsRecorded(g, caller, choice, fault);
    case Returned(caller, cleaned) => ReturningKeepsRecord(g, caller, cleaned, choice, fault);
  }

  /** Once the final state is settled, the record changes exactly when a late termination, cleanup or failed start
      writes another state over it, and then to that state. */
  lemma {:induction false} SettledRecordChangesExactlyByLateWrite(steps: seq<Step>, step: Step)
    requires After(steps).g.settled
    ensures var s, s' := After(steps), Next(After(steps), step);
      && (s'.g.journal != s.g.journal <==> Overwrites(s, step))
      && (Overwrites(s, step) ==> Some(s'.g.journal) == LateWrite(s.tasks[step.t]))
  {
    InvAlways(steps);
    hide After, SharedOk, OneHolder, PcOk, LateWrite;
    var s := After(steps);
    if step.Run? && step.t in s.tasks {
      LateWriteIsAll(s.g, step.t, s.tasks[step.t], step.choice, step.fault);
      hide TaskStep;
    }
  }

  predicate ReadsAlive(stored: J.StoredState) { stored == J.Starting || stored == J.Running }

  // The monitor writes the state it read when it found that the drain had panicked, and that was Starting or Running.
  predicate WritesStaleState(s: State, step: Step) {
    step.Run? && !step.fault && step.t in s.tasks && s.tasks[step.t] == PanicAs(J.Running)
  }

  lemma {:induction false} TaskStepRevives(g: Shared, t: TaskId, pc: Pc, choice: Choice, fault: bool)
    requires PcOk(g, t, pc) && NeverStarting(pc) && !ReadsAlive(g.journal)
    ensures ReadsAlive(TaskStep(g, pc, choice, fault).0.journal) <==> !fault && pc == PanicAs(J.Running)
  {
    hide StartStep, MonitorStep, BeginStep, CleanupStep, AttemptStep, DrainStep;
    if IsStartPc(pc) {
      StartStepRevivesNothing(g, pc, choice, fault);
    } else if IsMonitorPc(pc) {
      MonitorStepRevives(g, t, pc, fault);
    } else if IsDrainPc(pc) {
      DrainStepRevivesNothing(g, t, pc, choice, fault);
    } else if IsBeginPc(pc) {
      BeginWritesLate(g, pc, fault);
    } else if IsCleanupPc(pc) {
      CleanupWritesLate(g, pc, choice, fault);
    }
  }

  lemma {:induction false} StartStepRevivesNothing(g: Shared, pc: Pc, choice: Choice, fault: bool)
    requires IsStartPc(pc) && !ReadsAlive(g.journal)
    ensures !ReadsAlive(StartStep(g, pc, choice, fault).0.journal)
  {
    if IsReadinessPc(pc) {
      ReadinessIsFirst(g, pc, choice, fault);
    } else {
      hide IsTerminal, ReadinessStep;
      match pc
      case MarkRunning =>
      case Guard =>
      case FailedStart =>
    }
  }

  lemma {:induction false} ReadinessIsFirst(g: Shared, pc: Pc, choice: Choice, fault: bool)
    requires IsReadinessPc(pc)
    ensures StartStep(g, pc, choice, fault) == ReadinessStep(g, pc, choice, fault)
  {
    hide ReadinessStep;
  }

  lemma {:induction false} MonitorStepRevives(g: Shared, t: TaskId, pc: Pc, fault: bool)
    requires PcOk(g, t, pc) && NeverStarting(pc) && IsMonitorPc(pc) && !ReadsAlive(g.journal)
    ensures ReadsAlive(MonitorStep(g, pc, fault).0.journal) <==> !fault && pc == PanicAs(J.Running)
  {
    hide Moved;
    if pc.Journal? {
      FinalStateIsRecorded(g, pc.final, fault);
    } else if pc.PanicAs? {
      ReadStateIsRecorded(g, pc.value, fault);
    } else {
      hide PcOk, StoredAs;
    }
  }

  lemma {:induction false} FinalStateIsRecorded(g: Shared, final: LifecycleState, fault: bool)
    requires IsTerminal(final)
    ensures MonitorStep(g, Journal(final), fault).0.journal == if fault then g.journal else StoredAs(final)
    ensures !ReadsAlive(StoredAs(final))
  {
  }

  lemma {:induction false} ReadStateIsRecorded(g: Shared, value: J.StoredState, fault: bool)
    ensures MonitorStep(g, PanicAs(value), fault).0.journal == if fault then g.journal else value
  {
  }

  lemma {:induction false} DrainStepRevivesNothing(g: Shared, t: TaskId, pc: Pc, choice: Choice, fault: bool)
    requires PcOk(g, t, pc) && NeverStarting(pc) && IsDrainPc(pc) && !ReadsAlive(g.journal)
    ensures !ReadsAlive(DrainStep(g, pc, choice, fault).0.journal)
  {
    hide StoredAs;
    match pc
    case Draining =>
    case Record =>
    case RecordAs(_) =>
  }

  lemma {:induction false} LoopKeepsRecord(g: Shared, caller: Caller, choice: Choice, fault: bool)
    ensures CleanupStep(g, Loop(caller), choice, fault).0.journal == g.journal
  {
    hide Moved, IsTerminal;
  }

  lemma {:induction false} OverdueKeepsRecord(g: Shared, caller: Caller, choice: Choice, fault: bool)
    ensures CleanupStep(g, Overdue(caller), choice, fault).0.journal == g.journal
  {
    hide Moved;
  }

  lemma {:induction false} GivingUpIsRecorded(g: Shared, caller: Caller, choice: Choice, fault: bool)
    ensures CleanupStep(g, GaveUp(caller), choice, fault).0.journal == if fault then g.journal else J.Unrecoverable
  {
  }

  lemma {:induction false} ReturningKeepsRecord(g: Shared, caller: Caller, cleaned: bool, choice: Choice, fault: bool)
    ensures CleanupStep(g, Returned(caller, cleaned), choice, fault).0.journal == g.journal
  {
  }

  // No state of a session is recorded as STARTING.
  predicate NeverStarting(pc: Pc) { pc != PanicAs(J.Starting) && pc != RecordAs(J.Starting) }

  ghost predicate NoStartingRead(tasks: map<TaskId, Pc>) { forall t :: t in tasks ==> NeverStarting(tasks[t]) }

  lemma {:induction false} NoStartingReadAlways(steps: seq<Step>)
    ensures NoStartingRead(After(steps).tasks)
  {
    if steps != [] {
      NoStartingReadAlways(steps[..|steps| - 1]);
      var s, step := After(steps[..|steps| - 1]), steps[|steps| - 1];
      if step.Run? && step.t in s.tasks {
        NoneReadsStarting(s.g, s.tasks[step.t], step.choice, step.fault);
        hide TaskStep, NeverStarting;
      }
    }
  }

  lemma {:induction false} NoneReadsStarting(g: Shared, pc: Pc, choice: Choice, fault: bool)
    ensures NeverStarting(TaskStep(g, pc, choice, fault).1)
  {
    hide StartStep, MonitorStep, BeginStep, CleanupStep, AttemptStep, DrainStep;
    if IsStartPc(pc) {
      StartStepReads(g, pc, choice, fault);
    } else if IsMonitorPc(pc) {
      MonitorStepReads(g, pc, fault);
    } else if IsDrainPc(pc) {
      DrainStepReads(g, pc, choice, fault);
    } else if IsBeginPc(pc) {
      BeginStepReads(g, pc, fault);
    } else if IsCleanupPc(pc) {
      CleanupStepReads(g, pc, choice, fault);
    } else if IsAttemptPc(pc) {
      AttemptStepReads(g, pc);
    }
  }

  lemma {:induction false} StartStepReads(g: Shared, pc: Pc, choice: Choice, fault: bool)
    requires IsStartPc(pc)
    ensures NeverStarting(StartStep(g, pc, choice, fault).1)
  {
    hide Moved, IsTerminal, Stored;
  }

  lemma {:induction false} MonitorStepReads(g: Shared, pc: Pc, fault: bool)
    requires IsMonitorPc(pc)
    ensures NeverStarting(MonitorStep(g, pc, fault).1)
  {
    hide Moved, Stored;
  }

  lemma {:induction false} DrainStepReads(g: Shared, pc: Pc, choice: Choice, fault: bool)
    requires IsDrainPc(pc)
    ensures NeverStarting(DrainStep(g, pc, choice, fault).1)
  {
    hide Stored;
  }

  lemma {:induction false} BeginStepReads(g: Shared, pc: Pc, fault: bool)
    requires IsBeginPc(pc)
    ensures NeverStarting(BeginStep(g, pc, fault).1)
  {
    hide Moved, IsTerminal, Stored;
  }

  lemma {:induction false} CleanupStepReads(g: Shared, pc: Pc, choice: Choice, fault: bool)
    requires IsCleanupPc(pc)
    ensures NeverStarting(CleanupStep(g, pc, choice, fault).1)
  {
    hide Moved, IsTerminal, Stored;
  }

  lemma {:induction false} AttemptStepReads(g: Shared, pc: Pc)
    requires IsAttemptPc(pc)
    ensures NeverStarting(AttemptStep(g, pc).1)
  {
    hide IsTerminal;
  }

  /** In every run, a record that reads neither STARTING nor RUNNING is made to read so by exactly one kind of step. */
  lemma {:induction false} RecordIsRevivedExactlyByStaleWrite(steps: seq<Step>, step: Step)
    requires !ReadsAlive(After(steps).g.journal)
    ensures ReadsAlive(Next(After(steps), step).g.journal) <==> WritesStaleState(After(steps), step)
  {
    InvAlways(steps);
    NoStartingReadAlways(steps);
    hide After, SharedOk, OneHolder;
    var s := After(steps);
    if step.Run? && step.t in s.tasks {
      TaskStepRevives(s.g, step.t, s.tasks[step.t], step.choice, step.fault);
      hide TaskStep;
    }
  }

  // The drain panics; the monitor reads the state; a terminate call records TERMINATING; the monitor writes.
  const ASKED: seq<Step> := [Run(DRAIN, Stop, false), Run(MONITOR, Go, false), Terminate(3)]
  const ASKING := Run(3, Go, false)

  lemma {:induction false} AskedState()
    ensures After(ASKED) == State(
      INITIAL.g.(drained := true, panicked := true),
      map[START := Probe, MONITOR := PanicAs(J.Running), DRAIN := Done, 3 := Ask])
  {
    hide InBackground;
    var a, b, c := Run(DRAIN, Stop, false), Run(MONITOR, Go, false), Terminate(3);
    assert ASKED == [] + [a] + [b] + [c];
    AfterOneMore([], a);
    AfterOneMore([] + [a], b);
    AfterOneMore([] + [a] + [b], c);
    assert After([]) == INITIAL;
    var s1 := Next(INITIAL, a);
    assert s1.g == INITIAL.g.(drained := true, panicked := true) && s1.tasks == INITIAL.tasks[DRAIN := Done];
    assert Next(s1, b).tasks == s1.tasks[MONITOR := PanicAs(J.Running)];
  }

  lemma {:induction false} AnnouncingStep(g: Shared)
    ensures TaskStep(g, Announce(ForTerminate), Go, false) == (g.(journal := J.Terminating), Look(ForCleanup(Client)))
  {
  }

  lemma {:induction false} AskOnce(steps: seq<Step>, g: Shared, pc: Pc)
    requires 3 in After(steps).tasks && TaskStep(After(steps).g, After(steps).tasks[3], Go, false) == (g, pc)
    ensures After(steps + [ASKING]) == State(g, After(steps).tasks[3 := pc])
  {
    hide TaskStep;
    AfterOneMore(steps, ASKING);
  }

  /** It happens: the record goes from TERMINATING back to RUNNING. */
  lemma {:induction false} TerminatingRecordCanReadRunning() returns (steps: seq<Step>)
    ensures After(steps).g.journal == J.Terminating
    ensures Next(After(steps), Run(MONITOR, Go, false)).g.journal == J.Running
  {
    AskedState();
    hide After, TaskStep;
    var g := After(ASKED).g;
    RequestSteps(g);
    var asked := ASKED + [ASKING];
    AskOnce(ASKED, g, Look(ForTerminate));
    AskOnce(asked, g, Flag(Starting, ForTerminate));
    AskOnce(asked + [ASKING], g.(requested := true), Shift(Starting, ForTerminate));
    AskOnce(asked + [ASKING] + [ASKING], g.(requested := true, life := Terminating), Announce(ForTerminate));
    AnnouncingStep(g.(requested := true, life := Terminating));
    steps := asked + [ASKING] + [ASKING] + [ASKING] + [ASKING];
    AskOnce(asked + [ASKING] + [ASKING] + [ASKING], g.(requested := true, life := Terminating, journal := J.Terminating), Look(ForCleanup(Client)));
    StaleWrite(After(steps));
  }

  // The drain ends; the monitor decides that the session has exited, and records it; meanwhile a terminate call.
  const EXITED: seq<Step> := [Run(DRAIN, Go, false), Run(MONITOR, Go, false), Run(MONITOR, Go, false), Run(MONITOR, Go, false), Terminate(3)]

  lemma {:induction false} ExitedState()
    ensures After(EXITED) == State(
      INITIAL.g.(drained := true, journal := J.Exited, settled := true),
      map[START := Probe, MONITOR := Complete(Exited), DRAIN := Done, 3 := Ask])
  {
    hide InBackground;
    var drain, monitor := Run(DRAIN, Go, false), Run(MONITOR, Go, false);
    assert EXITED == [] + [drain] + [monitor] + [monitor] + [monitor] + [Terminate(3)];
    AfterOneMore([], drain);
    AfterOneMore([] + [drain], monitor);
    AfterOneMore([] + [drain] + [monitor], monitor);
    AfterOneMore([] + [drain] + [monitor] + [monitor], monitor);
    AfterOneMore([] + [drain] + [monitor] + [monitor] + [monitor], Terminate(3));
    assert After([]) == INITIAL;
    var s1 := Next(INITIAL, drain);
    assert s1.g == INITIAL.g.(drained := true) && s1.tasks == INITIAL.tasks[DRAIN := Done];
    var s2 := Next(s1, monitor);
    assert s2 == State(s1.g, s1.tasks[MONITOR := Decide]);
    var s3 := Next(s2, monitor);
    assert s3 == State(s1.g, s1.tasks[MONITOR := Journal(Exited)]);
    assert Next(s3, monitor) == State(s1.g.(journal := J.Exited, settled := true), s1.tasks[MONITOR := Complete(Exited)]);
  }

  /** It happens: the record goes from its settled EXITED to TERMINATING. */
  lemma {:induction false} SettledRecordCanReadTerminating() returns (steps: seq<Step>)
    ensures After(steps).g.settled && After(steps).g.journal == J.Exited
    ensures Next(After(steps), ASKING).g.journal == J.Terminating
  {
    ExitedState();
    hide After, TaskStep;
    var g := After(EXITED).g;
    RequestSteps(g);
    var asked := EXITED + [ASKING];
    AskOnce(EXITED, g, Look(ForTerminate));
    AskOnce(asked, g, Flag(Starting, ForTerminate));
    AskOnce(asked + [ASKING], g.(requested := true), Shift(Starting, ForTerminate));
    AskOnce(asked + [ASKING] + [ASKING], g.(requested := true, life := Terminating), Announce(ForTerminate));
    AnnouncingStep(g.(requested := true, life := Terminating));
    steps := asked + [ASKING] + [ASKING] + [ASKING];
  }

  lemma {:induction false} StaleWrite(s: State)
    requires MONITOR in s.tasks && s.tasks[MONITOR] == PanicAs(J.Running)
    ensures Next(s, Run(MONITOR, Go, false)).g.journal == J.Running
  {
  }
}

// How the daemon answers terminal mutations and filesystem changes: `handle_line` composes the replay cache,
// for terminals the durable journal, dispatch and the drop guard (crates/gobrowse-sandboxd/src/daemon.rs). Any number of
// connection tasks interleave at the steps below; a restart may fall between any two of them.
module Requests {
  import opened Basics
  import opened Protocol
  import R = Replay
  import J = Journal
  import L = OutputLog

  type TaskId = nat

  datatype Phase =
    | Queued                          // at the head of the loop
    | Probing                         // was told to wait, and looks a second time before sleeping
    | Parked                          // waits for a notification
    | Claimed                         // owns the replay slot, guard armed
    | Granted                         // the journal row is pending and owned by this task
    | Dispatched                      // the runtime is working
    | Working                         // a filesystem change: owns the replay slot only, and is being executed
    | Responded(response: Response)   // the runtime answered or timed out
    | Publishing(response: Response)  // about to fill the replay slot and answer
    | Finished

  datatype Task = Task(id: RequestId, op: Operation, phase: Phase)

  datatype Answer = Answer(id: RequestId, op: Operation, response: Response)

  datatype State = State(
    cache: R.Cache,
    rows: J.Mutations,
    tasks: map<TaskId, Task>,
    dispatched: multiset<RequestId>,  // every terminal mutation dispatched, over all daemon lives
    answers: seq<Answer>)             // every answer given, over all daemon lives

  datatype Step =
    | Arrive(t: TaskId, id: RequestId, op: Operation)
    | Begin(t: TaskId)
    | Probe(t: TaskId)
    | Wake(t: TaskId)
    | BeginMutation(t: TaskId, fault: bool)
    | Dispatch(t: TaskId)
    | Respond(t: TaskId, response: Response)
    | Store(t: TaskId, fault: bool)
    | Publish(t: TaskId)
    | Cancel(t: TaskId)
    | Restart

  function Moved(s: State, t: TaskId, phase: Phase): State
    requires t in s.tasks
  {
    s.(tasks := s.tasks[t := s.tasks[t].(phase := phase)])
  }

  function Replied(s: State, t: TaskId, response: Response): State
    requires t in s.tasks
  {
    Moved(s, t, Finished).(answers := s.answers + [Answer(s.tasks[t].id, s.tasks[t].op, response)])
  }

  // A step whose guard does not hold changes nothing.
  function Next(s: State, step: Step): State {
    match step
    case Arrive(t, id, op) =>
      if t in s.tasks then s else s.(tasks := s.tasks[t := Task(id, op, Queued)])
    case Restart => s.(cache := R.Empty(s.cache.capacity), tasks := map[])
    case _ =>
      if step.t !in s.tasks then s else TaskStep(s, step, s.tasks[step.t])
  }

  function TaskStep(s: State, step: Step, task: Task): State
    requires !step.Arrive? && !step.Restart? && step.t in s.tasks && task == s.tasks[step.t]
  {
    match (step, task.phase)
    case (Begin(t), Queued) => Begun(s, t)
    case (Probe(t), Probing) =>
      // Only a second `Wait` sleeps. Any other decision of this probe, `Execute` included, is dropped.
      var (cache, decision) := R.Admit(s.cache, task.id, task.op);
      Moved(s.(cache := cache), t, if decision.Wait? then Parked else Queued)
    case (Wake(t), Parked) => Moved(s, t, Queued)
    case (BeginMutation(t, fault), Claimed) => MutationBegun(s, t, fault)
    case (Dispatch(t), Granted) =>
      Moved(s.(dispatched := s.dispatched + multiset{task.id}), t, Dispatched)
    case (Respond(t, response), Dispatched) => Moved(s, t, Responded(response))
    case (Respond(t, response), Working) => Moved(s, t, Publishing(response))
    case (Store(t, fault), Responded(response)) =>
      var (rows, r) := if fault then (s.rows, Err(L.Sqlite)) else J.MutationCompleted(s.rows, task.id, response);
      Moved(s.(rows := rows), t, Publishing(if r.Ok? then response else Failure(OutcomeUnknown)))
    case (Publish(t), Publishing(response)) =>
      Replied(s.(cache := R.Finish(s.cache, task.id, task.op, response)), t, response)
    case (Cancel(t), _) =>
      // Dropping the future runs the guard when it is armed; a task can be dropped where it awaits.
      (match task.phase
       case Granted => Dropped(s, t)
       case Dispatched => Dropped(s, t)
       case Working => Dropped(s, t)
       case Parked => s.(tasks := s.tasks - {t})
       case Finished => s.(tasks := s.tasks - {t})
       case _ => s)
    case _ => s
  }

  function Begun(s: State, t: TaskId): State
    requires t in s.tasks
  {
    var (cache, decision) := R.Admit(s.cache, s.tasks[t].id, s.tasks[t].op);
    var s' := s.(cache := cache);
    match decision
    case Execute => Moved(s', t, if s.tasks[t].op.kind.Filesystem? then Working else Claimed)
    case Cached(response) => Replied(s', t, response)
    case Conflict => Replied(s', t, Failure(ErrorCode.Conflict))
    case Full => Replied(s', t, Failure(LimitExceeded))
    case Wait => Moved(s', t, Probing)
  }

  function MutationBegun(s: State, t: TaskId, fault: bool): State
    requires t in s.tasks
  {
    var (rows, r) := if fault then (s.rows, Err(L.Sqlite)) else J.MutationBegun(s.rows, s.tasks[t].id, s.tasks[t].op);
    Moved(s.(rows := rows), t,
      match r
      case Ok(ExecuteMutation) => Granted
      case Ok(CachedMutation(response)) => Publishing(response)
      case Err(Conflict) => Publishing(Failure(ErrorCode.Conflict))
      case Err(OutcomeUnknown) => Publishing(Failure(ErrorCode.OutcomeUnknown))
      case Err(_) => Publishing(Failure(Internal)))
  }

  function Dropped(s: State, t: TaskId): State
    requires t in s.tasks
  {
    s.(cache := R.Finish(s.cache, s.tasks[t].id, s.tasks[t].op, Failure(DeadlineExceeded)), tasks := s.tasks - {t})
  }

  function After(capacity: nat, steps: seq<Step>): State {
    if steps == [] then State(R.Empty(capacity), map[], map[], multiset{}, [])
    else Next(After(capacity, steps[..|steps| - 1]), steps[|steps| - 1])
  }

  // ---------------------------------------------------------------------------------------------
  // What every step keeps.

  // A connection that owns the replay slot of its request, with its guard armed.
  predicate Owns(phase: Phase) {
    phase.Claimed? || phase.Granted? || phase.Dispatched? || phase.Working? || phase.Responded? || phase.Publishing?
  }

  // A connection that owns the pending journal row of its request.
  predicate Executes(phase: Phase) { phase.Granted? || phase.Dispatched? || phase.Responded? }

  // Answers that say the request was not looked at: conflict, cache full, journal failure.
  predicate Refusal(r: Response) {
    r == Failure(ErrorCode.Conflict) || r == Failure(LimitExceeded) || r == Failure(Internal)
  }

  predicate HasExecutor(s: State, id: RequestId) {
    exists t :: t in s.tasks && s.tasks[t].id == id && Executes(s.tasks[t].phase)
  }

  // `r` may be told for `id` now and ever after: it answers a filesystem change, or it is a refusal, or it is the
  // stored response, or nobody is left who could still store one.
  ghost predicate Settled(s: State, id: RequestId, op: Operation, r: Response) {
    || op.kind.Filesystem?
    || Refusal(r)
    || (id in s.rows && match s.rows[id].status
        case Completed(stored) => r == stored
        case MutationPending => !HasExecutor(s, id))
  }

  ghost predicate SlotsOwned(s: State) {
    && R.Valid(s.cache)
    && (forall t :: t in s.tasks && Owns(s.tasks[t].phase) ==>
         s.tasks[t].id in s.cache.entries && s.cache.entries[s.tasks[t].id] == R.Entry(s.tasks[t].op, R.Pending))
    && (forall t, u :: t in s.tasks && u in s.tasks && t != u && Owns(s.tasks[t].phase) && Owns(s.tasks[u].phase) ==>
         s.tasks[t].id != s.tasks[u].id)
    && (forall t :: t in s.tasks && s.tasks[t].phase.Working? ==> s.tasks[t].op.kind.Filesystem?)
  }

  ghost predicate RowsOwned(s: State) {
    && (forall t :: t in s.tasks && Executes(s.tasks[t].phase) ==>
         s.tasks[t].id in s.rows && s.rows[s.tasks[t].id].status.MutationPending?)
    && (forall t :: t in s.tasks && s.tasks[t].phase.Granted? ==> s.dispatched[s.tasks[t].id] == 0)
    && (forall id :: s.dispatched[id] <= 1)
    && (forall id :: id in s.dispatched ==> id in s.rows)
  }

  ghost predicate HeldSettled(s: State) {
    && (forall id :: id in s.cache.entries && s.cache.entries[id].slot.Complete? ==>
         Settled(s, id, s.cache.entries[id].fingerprint, s.cache.entries[id].slot.response))
    && (forall t :: t in s.tasks && s.tasks[t].phase.Publishing? ==>
         Settled(s, s.tasks[t].id, s.tasks[t].op, s.tasks[t].phase.response))
  }

  ghost predicate Inv(s: State) { SlotsOwned(s) && RowsOwned(s) && HeldSettled(s) }

  // The answers that a step adds, and what may happen to the rows.
  ghost predicate Advances(s: State, s': State) {
    && s.answers <= s'.answers
    && (forall k :: |s.answers| <= k < |s'.answers| ==> Settled(s', s'.answers[k].id, s'.answers[k].op, s'.answers[k].response))
    && (forall id :: id in s.rows ==> id in s'.rows && (s.rows[id].status.Completed? ==> s'.rows[id] == s.rows[id]))
  }

  lemma {:induction false} SettledStays(s: State, s': State, id: RequestId, op: Operation, r: Response)
    requires Settled(s, id, op, r)
    requires id in s.rows ==> id in s'.rows && s'.rows[id].status == s.rows[id].status
    requires HasExecutor(s', id) ==> HasExecutor(s, id)
    ensures Settled(s', id, op, r)
  {
  }

  ghost predicate Good(s: State, s': State) { Inv(s') && Advances(s, s') }

  // A step of task t: what else it may touch, and what it owes for its own request.
  ghost predicate OtherRequestsFramed(s: State, s': State, t: TaskId)
    requires t in s.tasks
  {
    var id := s.tasks[t].id;
    && s'.tasks - {t} == s.tasks - {t}
    && (t in s'.tasks ==> s'.tasks[t].id == id && s'.tasks[t].op == s.tasks[t].op)
    && s'.rows - {id} == s.rows - {id}
    && s'.dispatched - multiset{id} <= s.dispatched <= s'.dispatched
    && R.Valid(s'.cache)
    && (forall other :: other in s.cache.entries && other != id && s.cache.entries[other].slot.Pending? ==>
         other in s'.cache.entries && s'.cache.entries[other] == s.cache.entries[other])
    && (forall other :: other in s'.cache.entries && other != id && s'.cache.entries[other].slot.Complete? ==>
         other in s.cache.entries && s'.cache.entries[other] == s.cache.entries[other])
  }

  ghost predicate SlotJustified(s: State, s': State, t: TaskId)
    requires t in s.tasks
  {
    var id, op, owned := s.tasks[t].id, s.tasks[t].op, Owns(s.tasks[t].phase);
    && (t in s'.tasks && Owns(s'.tasks[t].phase) ==>
         (owned || id !in s.cache.entries)
             && id in s'.cache.entries && s'.cache.entries[id] == R.Entry(op, R.Pending))
    && (!owned && id in s.cache.entries && s.cache.entries[id].slot.Pending? ==>
         id in s'.cache.entries && s'.cache.entries[id] == s.cache.entries[id])
    && (id in s'.cache.entries && s'.cache.entries[id].slot.Complete? ==>
         Settled(s', id, s'.cache.entries[id].fingerprint, s'.cache.entries[id].slot.response))
    && (t in s'.tasks && s'.tasks[t].phase.Publishing? ==> Settled(s', id, op, s'.tasks[t].phase.response))
    && (t in s'.tasks && s'.tasks[t].phase.Working? ==> op.kind.Filesystem?)
  }

  ghost predicate RowJustified(s: State, s': State, t: TaskId)
    requires t in s.tasks
  {
    var id, owned := s.tasks[t].id, Owns(s.tasks[t].phase);
    && (t in s'.tasks && Executes(s'.tasks[t].phase) ==>
         owned && id in s'.rows && s'.rows[id].status.MutationPending?)
    && (t in s'.tasks && s'.tasks[t].phase.Granted? ==> id !in s'.dispatched)
    && (id in s.rows ==> id in s'.rows && (s.rows[id].status.Completed? || !owned ==> s'.rows[id] == s.rows[id]))
    && s'.dispatched[id] <= 1 && (id in s'.dispatched ==> id in s'.rows)
    && (s'.dispatched != s.dispatched ==> s.tasks[t].phase.Granted?)
  }

  ghost predicate AnswerJustified(s: State, s': State, t: TaskId)
    requires t in s.tasks
  {
    || s'.answers == s.answers
    || (exists r :: s'.answers == s.answers + [Answer(s.tasks[t].id, s.tasks[t].op, r)]
          && Settled(s', s.tasks[t].id, s.tasks[t].op, r))
  }

  lemma {:induction false} NoNewExecutor(s: State, s': State, t: TaskId, other: RequestId)
    requires t in s.tasks && OtherRequestsFramed(s, s', t) && other != s.tasks[t].id
    ensures HasExecutor(s', other) ==> HasExecutor(s, other)
  {
    if HasExecutor(s', other) {
      var u :| u in s'.tasks && s'.tasks[u].id == other && Executes(s'.tasks[u].phase);
      assert u in s'.tasks - {t} && s.tasks[u] == s'.tasks[u];
    }
  }

  lemma {:induction false} SlotsStayOwned(s: State, s': State, t: TaskId)
    requires Inv(s) && t in s.tasks && OtherRequestsFramed(s, s', t) && SlotJustified(s, s', t)
    ensures SlotsOwned(s')
  {
    hide R.Valid, Settled;
    var id := s.tasks[t].id;
    forall u | u in s'.tasks && u != t
      ensures u in s.tasks && s'.tasks[u] == s.tasks[u]
      ensures Owns(s'.tasks[u].phase) ==>
        s'.tasks[u].id in s'.cache.entries
        && s'.cache.entries[s'.tasks[u].id] == R.Entry(s'.tasks[u].op, R.Pending)
      ensures Owns(s'.tasks[u].phase) && t in s'.tasks && Owns(s'.tasks[t].phase) ==> s'.tasks[u].id != id
    {
      assert u in s'.tasks - {t};
      assert u in s.tasks && s'.tasks[u] == s.tasks[u];
    }
  }

  lemma {:induction false} OtherRowsStay(s: State, s': State, t: TaskId, other: RequestId)
    requires t in s.tasks && OtherRequestsFramed(s, s', t) && other != s.tasks[t].id
    ensures s'.dispatched[other] == s.dispatched[other]
    ensures other in s.rows ==> other in s'.rows && s'.rows[other] == s.rows[other]
  {
    var id := s.tasks[t].id;
    assert other in s.rows ==> other in s.rows - {id};
    assert (s'.dispatched - multiset{id})[other] == s'.dispatched[other];
  }

  lemma {:induction false} ExecutorsStayOwners(s: State, s': State, t: TaskId, u: TaskId)
    requires Inv(s) && t in s.tasks && OtherRequestsFramed(s, s', t) && RowJustified(s, s', t)
    requires u in s'.tasks && Executes(s'.tasks[u].phase)
    ensures s'.tasks[u].id in s'.rows && s'.rows[s'.tasks[u].id].status.MutationPending?
    ensures s'.tasks[u].phase.Granted? ==> s'.dispatched[s'.tasks[u].id] == 0
  {
    if u != t {
      assert u in s'.tasks - {t};
      assert u in s.tasks && s.tasks[u] == s'.tasks[u];
      if s.tasks[u].id != s.tasks[t].id {
        OtherRowsStay(s, s', t, s.tasks[u].id);
      } else if Owns(s.tasks[t].phase) {
        assert false;
      }
    }
  }

  lemma {:induction false} RowsStayOwned(s: State, s': State, t: TaskId)
    requires Inv(s) && t in s.tasks && OtherRequestsFramed(s, s', t) && RowJustified(s, s', t)
    ensures RowsOwned(s')
  {
    forall u | u in s'.tasks && Executes(s'.tasks[u].phase)
      ensures s'.tasks[u].id in s'.rows && s'.rows[s'.tasks[u].id].status.MutationPending?
      ensures s'.tasks[u].phase.Granted? ==> s'.dispatched[s'.tasks[u].id] == 0
    {
      ExecutorsStayOwners(s, s', t, u);
    }
    forall other | other != s.tasks[t].id
      ensures s'.dispatched[other] == s.dispatched[other]
      ensures other in s.rows ==> other in s'.rows && s'.rows[other] == s.rows[other]
    {
      OtherRowsStay(s, s', t, other);
    }
    hide OtherRequestsFramed, SlotsOwned, HeldSettled;
  }

  lemma {:induction false} HeldStaySettled(s: State, s': State, t: TaskId)
    requires Inv(s) && t in s.tasks && OtherRequestsFramed(s, s', t)
    requires SlotJustified(s, s', t) && RowJustified(s, s', t)
    ensures HeldSettled(s')
  {
    hide R.Valid, Settled;
    var id := s.tasks[t].id;
    forall other | other in s'.cache.entries && other != id && s'.cache.entries[other].slot.Complete?
      ensures Settled(s', other, s'.cache.entries[other].fingerprint, s'.cache.entries[other].slot.response)
    {
      OtherStaysSettled(s, s', t, other, s.cache.entries[other].fingerprint, s.cache.entries[other].slot.response);
    }
    forall u | u in s'.tasks && u != t && s'.tasks[u].phase.Publishing?
      ensures Settled(s', s'.tasks[u].id, s'.tasks[u].op, s'.tasks[u].phase.response)
    {
      assert u in s'.tasks - {t};
      assert u in s.tasks && s'.tasks[u] == s.tasks[u];
      if s.tasks[u].id == id {
        assert !Owns(s.tasks[t].phase);
        OwnStaysSettled(s, s', t, s.tasks[u].op, s.tasks[u].phase.response);
      } else {
        OtherStaysSettled(s, s', t, s.tasks[u].id, s.tasks[u].op, s.tasks[u].phase.response);
      }
    }
  }

  lemma {:induction false} OtherStaysSettled(s: State, s': State, t: TaskId, other: RequestId, op: Operation, r: Response)
    requires t in s.tasks && OtherRequestsFramed(s, s', t) && other != s.tasks[t].id && Settled(s, other, op, r)
    ensures Settled(s', other, op, r)
  {
    NoNewExecutor(s, s', t, other);
    assert other in s.rows ==> other in s.rows - {s.tasks[t].id};
    SettledStays(s, s', other, op, r);
  }

  lemma {:induction false} OwnStaysSettled(s: State, s': State, t: TaskId, op: Operation, r: Response)
    requires t in s.tasks && OtherRequestsFramed(s, s', t) && RowJustified(s, s', t)
    requires !Owns(s.tasks[t].phase) && Settled(s, s.tasks[t].id, op, r)
    ensures Settled(s', s.tasks[t].id, op, r)
  {
    var id := s.tasks[t].id;
    if HasExecutor(s', id) {
      var u :| u in s'.tasks && s'.tasks[u].id == id && Executes(s'.tasks[u].phase);
      assert u in s'.tasks - {t} && s.tasks[u] == s'.tasks[u];
    }
    SettledStays(s, s', id, op, r);
  }

  lemma {:induction false} JustifiedIsGood(s: State, s': State, t: TaskId)
    requires Inv(s) && t in s.tasks && OtherRequestsFramed(s, s', t)
    requires SlotJustified(s, s', t) && RowJustified(s, s', t) && AnswerJustified(s, s', t)
    ensures Good(s, s')
  {
    SlotsStayOwned(s, s', t);
    RowsStayOwned(s, s', t);
    HeldStaySettled(s, s', t);
    forall id | id in s.rows
      ensures id in s'.rows && (s.rows[id].status.Completed? ==> s'.rows[id] == s.rows[id])
    {
      assert id != s.tasks[t].id ==> id in s.rows - {s.tasks[t].id};
    }
  }

  lemma {:induction false} OwnerIsAlone(s: State, t: TaskId, u: TaskId)
    requires Inv(s) && t in s.tasks && Owns(s.tasks[t].phase)
    requires u in s.tasks && Executes(s.tasks[u].phase) && s.tasks[u].id == s.tasks[t].id
    ensures u == t
  {
  }

  // Looking at the cache, whatever is done with the decision.
  lemma {:induction false} LookIsGood(s: State, s': State, t: TaskId)
    requires Inv(s) && t in s.tasks && !Owns(s.tasks[t].phase) && t in s'.tasks
    requires var (cache, decision) := R.Admit(s.cache, s.tasks[t].id, s.tasks[t].op);
      && s' == Moved(s.(cache := cache), t, s'.tasks[t].phase).(answers := s'.answers)
      && (Owns(s'.tasks[t].phase) ==>
            decision.Execute? && s'.tasks[t].phase == if s.tasks[t].op.kind.Filesystem? then Working else Claimed)
    requires AnswerJustified(s, s', t)
    ensures Good(s, s')
  {
    hide R.Valid, R.Admit, Settled;
    var id, op := s.tasks[t].id, s.tasks[t].op;
    LookFrame(s.cache, id, op);
    assert OtherRequestsFramed(s, s', t);
    assert RowJustified(s, s', t);
    if id in s'.cache.entries && s'.cache.entries[id].slot.Complete? {
      OwnStaysSettled(s, s', t, s.cache.entries[id].fingerprint, s.cache.entries[id].slot.response);
    }
    assert SlotJustified(s, s', t);
    JustifiedIsGood(s, s', t);
  }

  lemma {:induction false} LookFrame(c: R.Cache, id: RequestId, op: Operation)
    requires R.Valid(c)
    ensures var (c', decision) := R.Admit(c, id, op);
      && R.Valid(c')
      && (forall other :: other in c.entries && c.entries[other].slot.Pending? ==>
            other in c'.entries && c'.entries[other] == c.entries[other])
      && (forall other :: other in c'.entries && c'.entries[other].slot.Complete? ==>
            other in c.entries && c'.entries[other] == c.entries[other])
      && (decision.Execute? ==> id !in c.entries && id in c'.entries && c'.entries[id] == R.Entry(op, R.Pending))
      && (decision.Cached? ==> id in c.entries && c.entries[id] == R.Entry(op, R.Complete(decision.response)))
  {
    var c' := R.Admit(c, id, op).0;
    R.BeginKeepsValid(c, id, op);
    forall other
      ensures other in c.entries && c.entries[other].slot.Pending? ==>
        other in c'.entries && c'.entries[other] == c.entries[other]
      ensures other in c'.entries && c'.entries[other].slot.Complete? ==>
        other in c.entries && c'.entries[other] == c.entries[other]
    {
      R.BeginFrame(c, id, op, other);
    }
  }

  lemma {:induction false} BeginIsGood(s: State, t: TaskId)
    requires Inv(s) && t in s.tasks && s.tasks[t].phase.Queued?
    ensures Good(s, Begun(s, t))
  {
    hide R.Valid, R.Admit;
    var s', id := Begun(s, t), s.tasks[t].id;
    var decision := R.Admit(s.cache, id, s.tasks[t].op).1;
    LookFrame(s.cache, id, s.tasks[t].op);
    if decision.Cached? {
      assert s'.answers == s.answers + [Answer(id, s.tasks[t].op, decision.response)];
      assert Settled(s, id, s.tasks[t].op, decision.response);
      OwnStaysSettled(s, s', t, s.tasks[t].op, decision.response);
    }
    LookIsGood(s, s', t);
  }

  lemma {:induction false} BeginMutationIsGood(s: State, t: TaskId, fault: bool)
    requires Inv(s) && t in s.tasks && s.tasks[t].phase.Claimed?
    ensures Good(s, MutationBegun(s, t, fault))
  {
    var s', id := MutationBegun(s, t, fault), s.tasks[t].id;
    if HasExecutor(s', id) && !s'.tasks[t].phase.Granted? {
      var u :| u in s'.tasks && s'.tasks[u].id == id && Executes(s'.tasks[u].phase);
      OwnerIsAlone(s, t, u);
    }
    JustifiedIsGood(s, s', t);
  }

  lemma {:induction false} StoreIsGood(s: State, t: TaskId, fault: bool)
    requires Inv(s) && t in s.tasks && s.tasks[t].phase.Responded?
    ensures Good(s, Next(s, Store(t, fault)))
  {
    var s', id := Next(s, Store(t, fault)), s.tasks[t].id;
    if HasExecutor(s', id) {
      var u :| u in s'.tasks && s'.tasks[u].id == id && Executes(s'.tasks[u].phase);
      OwnerIsAlone(s, t, u);
    }
    JustifiedIsGood(s, s', t);
  }

  lemma {:induction false} FinishFrame(c: R.Cache, id: RequestId, op: Operation, r: Response)
    requires R.Valid(c) && id in c.entries && c.entries[id] == R.Entry(op, R.Pending)
    ensures R.Valid(R.Finish(c, id, op, r)) && R.Finish(c, id, op, r).capacity == c.capacity
    ensures R.Finish(c, id, op, r).entries == c.entries[id := R.Entry(op, R.Complete(r))]
  {
  }

  lemma {:induction false} PublishFrames(s: State, t: TaskId)
    requires Inv(s) && t in s.tasks && s.tasks[t].phase.Publishing?
    ensures OtherRequestsFramed(s, Next(s, Publish(t)), t) && RowJustified(s, Next(s, Publish(t)), t)
  {
    hide R.Valid, R.Finish, R.Admit, Begun, MutationBegun, Dropped, HeldSettled;
    var task, s' := s.tasks[t], Next(s, Publish(t));
    FinishFrame(s.cache, task.id, task.op, task.phase.response);
    assert s' == State(s'.cache, s.rows, s.tasks[t := Task(task.id, task.op, Finished)], s.dispatched, s'.answers);
    assert s'.cache.entries == s.cache.entries[task.id := R.Entry(task.op, R.Complete(task.phase.response))];
    hide Next, Inv;
    assert s'.tasks - {t} == s.tasks - {t};
    assert RowJustified(s, s', t) by { hide OtherRequestsFramed; }
  }

  lemma {:induction false} PublishedIsSettled(s: State, t: TaskId)
    requires Inv(s) && t in s.tasks && s.tasks[t].phase.Publishing?
    ensures Settled(Next(s, Publish(t)), s.tasks[t].id, s.tasks[t].op, s.tasks[t].phase.response)
  {
    hide R.Valid, R.Finish, R.Admit, Begun, MutationBegun, Dropped, RowsOwned, Settled;
    var s', id := Next(s, Publish(t)), s.tasks[t].id;
    if HasExecutor(s', id) {
      var u :| u in s'.tasks && s'.tasks[u].id == id && Executes(s'.tasks[u].phase);
      OwnerIsAlone(s, t, u);
    }
    SettledStays(s, s', id, s.tasks[t].op, s.tasks[t].phase.response);
  }

  lemma {:induction false} PublishIsGood(s: State, t: TaskId)
    requires Inv(s) && t in s.tasks && s.tasks[t].phase.Publishing?
    ensures Good(s, Next(s, Publish(t)))
  {
    hide R.Valid, R.Finish, R.Admit, Begun, MutationBegun, Dropped, Settled, OtherRequestsFramed, RowJustified;
    var task, s' := s.tasks[t], Next(s, Publish(t));
    PublishFrames(s, t);
    PublishedIsSettled(s, t);
    FinishFrame(s.cache, task.id, task.op, task.phase.response);
    assert SlotJustified(s, s', t);
    assert s'.answers == s.answers + [Answer(task.id, task.op, task.phase.response)];
    JustifiedIsGood(s, s', t);
  }

  lemma {:induction false} DropIsGood(s: State, t: TaskId)
    requires Inv(s) && t in s.tasks
    requires var phase := s.tasks[t].phase; phase.Granted? || phase.Dispatched? || phase.Working?
    ensures Good(s, Dropped(s, t))
  {
    var task, s' := s.tasks[t], Dropped(s, t);
    FinishFrame(s.cache, task.id, task.op, Failure(DeadlineExceeded));
    if HasExecutor(s', task.id) {
      var u :| u in s'.tasks && s'.tasks[u].id == task.id && Executes(s'.tasks[u].phase);
      OwnerIsAlone(s, t, u);
    }
    JustifiedIsGood(s, s', t);
  }

  // Moving or dropping a task without touching the cache, the rows or the answers.
  lemma {:induction false} MoveIsGood(s: State, s': State, t: TaskId)
    requires Inv(s) && t in s.tasks
    requires s' == s.(tasks := s.tasks - {t}) || (t in s'.tasks && s' == Moved(s, t, s'.tasks[t].phase))
    requires || (!Owns(s.tasks[t].phase) && (t in s'.tasks ==> s'.tasks[t].phase.Queued?))
             || (s.tasks[t].phase.Dispatched? && t in s'.tasks && s'.tasks[t].phase.Responded?)
    ensures Good(s, s')
  {
    var id := s.tasks[t].id;
    if id in s.cache.entries && s.cache.entries[id].slot.Complete? {
      OwnStaysSettled(s, s', t, s.cache.entries[id].fingerprint, s.cache.entries[id].slot.response);
    }
    JustifiedIsGood(s, s', t);
  }

  lemma {:induction false} AnswerOfChangeIsGood(s: State, t: TaskId, response: Response)
    requires Inv(s) && t in s.tasks && s.tasks[t].phase.Working?
    ensures Good(s, Moved(s, t, Publishing(response)))
  {
    hide R.Valid;
    JustifiedIsGood(s, Moved(s, t, Publishing(response)), t);
  }

  lemma {:induction false} DispatchIsGood(s: State, t: TaskId)
    requires Inv(s) && t in s.tasks && s.tasks[t].phase.Granted?
    ensures Good(s, Next(s, Dispatch(t)))
  {
    var s' := Next(s, Dispatch(t));
    JustifiedIsGood(s, s', t);
  }

  lemma {:induction false} ArriveIsGood(s: State, t: TaskId, id: RequestId, op: Operation)
    requires Inv(s) && t !in s.tasks
    ensures Good(s, s.(tasks := s.tasks[t := Task(id, op, Queued)]))
  {
    var s' := s.(tasks := s.tasks[t := Task(id, op, Queued)]);
    SameExecutors(s, s');
  }

  // No step here makes a task an executor.
  lemma {:induction false} SameExecutors(s: State, s': State)
    requires HeldSettled(s) && s'.rows == s.rows
    requires forall u :: u in s'.tasks && Owns(s'.tasks[u].phase) ==> u in s.tasks && s.tasks[u] == s'.tasks[u]
    requires s'.cache == s.cache || s'.cache.entries == map[]
    ensures HeldSettled(s')
  {
    forall id ensures HasExecutor(s', id) ==> HasExecutor(s, id) {
    }
    forall u | u in s'.tasks && s'.tasks[u].phase.Publishing?
      ensures Settled(s', s'.tasks[u].id, s'.tasks[u].op, s'.tasks[u].phase.response)
    {
      SettledStays(s, s', s.tasks[u].id, s.tasks[u].op, s.tasks[u].phase.response);
    }
    forall id | id in s'.cache.entries && s'.cache.entries[id].slot.Complete?
      ensures Settled(s', id, s'.cache.entries[id].fingerprint, s'.cache.entries[id].slot.response)
    {
      SettledStays(s, s', id, s.cache.entries[id].fingerprint, s.cache.entries[id].slot.response);
    }
  }

  lemma {:induction false} RestartIsGood(s: State)
    requires Inv(s)
    ensures Good(s, Next(s, Restart))
  {
    SameExecutors(s, Next(s, Restart));
  }

  lemma {:induction false} StutterIsGood(s: State)
    requires Inv(s)
    ensures Good(s, s)
  {
  }

  lemma {:induction false} OwnerStepIsGood(s: State, step: Step)
    requires Inv(s) && !step.Arrive? && !step.Restart? && step.t in s.tasks && Owns(s.tasks[step.t].phase)
    ensures Good(s, Next(s, step))
  {
    hide Inv, Good;
    StutterIsGood(s);
    var t := step.t;
    match s.tasks[t].phase
    case Claimed => if step.BeginMutation? { BeginMutationIsGood(s, t, step.fault); }
    case Granted => if step.Dispatch? { DispatchIsGood(s, t); } else if step.Cancel? { DropIsGood(s, t); }
    case Dispatched =>
      if step.Respond? { MoveIsGood(s, Next(s, step), t); } else if step.Cancel? { DropIsGood(s, t); }
    case Working =>
      if step.Respond? { AnswerOfChangeIsGood(s, t, step.response); } else if step.Cancel? { DropIsGood(s, t); }
    case Responded(_) => if step.Store? { StoreIsGood(s, t, step.fault); }
    case Publishing(_) => if step.Publish? { PublishIsGood(s, t); }
  }

  lemma {:induction false} OtherStepIsGood(s: State, step: Step)
    requires Inv(s) && !step.Arrive? && !step.Restart? && step.t in s.tasks && !Owns(s.tasks[step.t].phase)
    ensures Good(s, Next(s, step))
  {
    hide Inv, Good;
    StutterIsGood(s);
    var t := step.t;
    match s.tasks[t].phase
    case Queued => if step.Begin? { BeginIsGood(s, t); }
    case Probing => if step.Probe? { LookIsGood(s, Next(s, step), t); }
    case Parked => if step.Wake? || step.Cancel? { MoveIsGood(s, Next(s, step), t); }
    case Finished => if step.Cancel? { MoveIsGood(s, Next(s, step), t); }
  }

  lemma {:induction false} StepIsGood(s: State, step: Step)
    requires Inv(s)
    ensures Good(s, Next(s, step))
  {
    hide Inv, Good;
    StutterIsGood(s);
    if step.Restart? {
      RestartIsGood(s);
    } else if step.Arrive? {
      if step.t !in s.tasks {
        ArriveIsGood(s, step.t, step.id, step.op);
      }
    } else if step.t in s.tasks {
      if Owns(s.tasks[step.t].phase) {
        OwnerStepIsGood(s, step);
      } else {
        OtherStepIsGood(s, step);
      }
    }
  }

  lemma {:induction false} InvAlways(capacity: nat, steps: seq<Step>)
    requires capacity > 0
    ensures Inv(After(capacity, steps))
  {
    if steps != [] {
      InvAlways(capacity, steps[..|steps| - 1]);
      StepIsGood(After(capacity, steps[..|steps| - 1]), steps[|steps| - 1]);
    }
  }

  lemma {:induction false} AfterOneMore(capacity: nat, steps: seq<Step>, step: Step)
    ensures After(capacity, steps + [step]) == Next(After(capacity, steps), step)
  {
    assert (steps + [step])[..|steps|] == steps;
  }

  // ---------------------------------------------------------------------------------------------
  // What clients rely on, over every interleaving, cancellation, journal failure and restart.

  /** A request is dispatched to the runtime at most once, and never without its durable row. */
  lemma {:induction false} DispatchedAtMostOnce(capacity: nat, steps: seq<Step>, id: RequestId)
    requires capacity > 0
    ensures After(capacity, steps).dispatched[id] <= 1
    ensures id in After(capacity, steps).dispatched ==> id in After(capacity, steps).rows
  {
    InvAlways(capacity, steps);
  }

  /** Whenever a task is about to dispatch, it alone holds the pending replay slot and the pending row. */
  lemma {:induction false} ClaimedBeforeDispatch(capacity: nat, steps: seq<Step>, t: TaskId)
    requires capacity > 0
    requires t in After(capacity, steps).tasks && After(capacity, steps).tasks[t].phase.Granted?
    ensures var s := After(capacity, steps); var id := s.tasks[t].id;
      && id in s.cache.entries && s.cache.entries[id] == R.Entry(s.tasks[t].op, R.Pending)
      && id in s.rows && s.rows[id].status.MutationPending? && id !in s.dispatched
      && (forall u :: u in s.tasks && u != t && s.tasks[u].id == id ==> !Owns(s.tasks[u].phase))
  {
    InvAlways(capacity, steps);
  }

  lemma {:induction false} RowsAndAnswersPersist(capacity: nat, steps: seq<Step>, more: seq<Step>)
    requires capacity > 0
    ensures var s, s' := After(capacity, steps), After(capacity, steps + more);
      && s.answers <= s'.answers
      && (forall id :: id in s.rows ==> id in s'.rows && (s.rows[id].status.Completed? ==> s'.rows[id] == s.rows[id]))
  {
    if more == [] {
      assert steps + more == steps;
    } else {
      var past, step := more[..|more| - 1], more[|more| - 1];
      assert steps + more == (steps + past) + [step];
      RowsAndAnswersPersist(capacity, steps, past);
      InvAlways(capacity, steps + past);
      AfterOneMore(capacity, steps + past, step);
      StepIsGood(After(capacity, steps + past), step);
    }
  }

  /** Once a response is stored for a request, every answer given from then on to a terminal mutation with that
      request id is that response or a refusal: never another result and never an unknown outcome. */
  lemma {:induction false} StoredResponseIsFinal(
      capacity: nat, steps: seq<Step>, more: seq<Step>, id: RequestId, stored: Response, k: nat)
    requires capacity > 0
    requires var s := After(capacity, steps); id in s.rows && s.rows[id].status == J.Completed(stored)
    requires |After(capacity, steps).answers| <= k < |After(capacity, steps + more).answers|
    requires After(capacity, steps + more).answers[k].id == id && !After(capacity, steps + more).answers[k].op.kind.Filesystem?
    ensures var r := After(capacity, steps + more).answers[k].response; r == stored || Refusal(r)
  {
    assert more == [] ==> steps + more == steps;
    if more != [] {
      var past, step := more[..|more| - 1], more[|more| - 1];
      assert steps + more == (steps + past) + [step];
      var before := After(capacity, steps + past);
      RowsAndAnswersPersist(capacity, steps, past);
      InvAlways(capacity, steps + past);
      AfterOneMore(capacity, steps + past, step);
      StepIsGood(before, step);
      if k < |before.answers| {
        StoredResponseIsFinal(capacity, steps, past, id, stored, k);
      } else {
        assert Settled(Next(before, step), id, Next(before, step).answers[k].op, Next(before, step).answers[k].response);
      }
    }
  }

  /** A filesystem change that carries the same request id has no row: after a restart it is executed, and answers
      whatever its own result is. */
  lemma {:induction false} FilesystemAnswersItself(
      capacity: nat, steps: seq<Step>, t: TaskId, id: RequestId, op: Operation, r: Response) returns (more: seq<Step>)
    requires capacity > 0 && op.kind.Filesystem?
    ensures After(capacity, steps + more).answers == After(capacity, steps).answers + [Answer(id, op, r)]
    ensures After(capacity, steps + more).rows == After(capacity, steps).rows
  {
    hide After, Next, Inv;
    var restarted, arrived := steps + [Restart], steps + [Restart] + [Arrive(t, id, op)];
    AfterOneMore(capacity, steps, Restart);
    AfterOneMore(capacity, restarted, Arrive(t, id, op));
    AfterOneMore(capacity, arrived, Begin(t));
    AfterOneMore(capacity, arrived + [Begin(t)], Respond(t, r));
    AfterOneMore(capacity, arrived + [Begin(t)] + [Respond(t, r)], Publish(t));
    CapacityStays(capacity, steps);
    more := [Restart] + [Arrive(t, id, op)] + [Begin(t)] + [Respond(t, r)] + [Publish(t)];
    assert steps + more == arrived + [Begin(t)] + [Respond(t, r)] + [Publish(t)];
    RestartForgets(After(capacity, steps));
    ChangeRuns(After(capacity, restarted), t, id, op, r);
  }

  lemma {:induction false} RestartForgets(s: State)
    ensures Next(s, Restart) == s.(cache := R.Empty(s.cache.capacity), tasks := map[])
  {
  }

  lemma {:induction false} ChangeRuns(s: State, t: TaskId, id: RequestId, op: Operation, r: Response)
    requires s.cache == R.Empty(s.cache.capacity) && s.cache.capacity > 0 && t !in s.tasks && op.kind.Filesystem?
    ensures var s' := Next(Next(Next(Next(s, Arrive(t, id, op)), Begin(t)), Respond(t, r)), Publish(t));
      s'.answers == s.answers + [Answer(id, op, r)] && s'.rows == s.rows
  {
    var arrived := Next(s, Arrive(t, id, op));
    assert R.Admit(arrived.cache, id, op) == (R.Claim(arrived.cache, id, op), R.Execute);
    var begun := Next(arrived, Begin(t));
    assert begun.tasks[t] == Task(id, op, Working) && begun.rows == s.rows && begun.answers == s.answers;
    hide R.Admit, R.Claim, R.Finish;
    var responded := Next(begun, Respond(t, r));
    assert responded.tasks[t] == Task(id, op, Publishing(r));
  }

  lemma {:induction false} CapacityStays(capacity: nat, steps: seq<Step>)
    requires capacity > 0
    ensures After(capacity, steps).cache.capacity == capacity
  {
    hide R.OldestComplete, MutationBegun;
    if steps != [] {
      CapacityStays(capacity, steps[..|steps| - 1]);
      StepKeepsCapacity(After(capacity, steps[..|steps| - 1]), steps[|steps| - 1]);
    }
  }

  lemma {:induction false} StepKeepsCapacity(s: State, step: Step)
    ensures Next(s, step).cache.capacity == s.cache.capacity
  {
    hide R.OldestComplete;
  }

  // ---------------------------------------------------------------------------------------------
  // What a request is answered, exactly.

  // The step answers the task, and changes no row.
  predicate Answers(s: State, s': State, t: TaskId, response: Response)
    requires t in s.tasks
  {
    s'.answers == s.answers + [Answer(s.tasks[t].id, s.tasks[t].op, response)] && s'.rows == s.rows
  }

  /** In every run, by the slot that its id has: the same operation gets exactly the answer that is stored there, or
      waits for it; another operation conflicts; and a new id is refused when all slots are pending, and else owns
      its slot. */
  lemma {:induction false} SlotDecidesAnswer(capacity: nat, steps: seq<Step>, t: TaskId)
    requires capacity > 0 && t in After(capacity, steps).tasks && After(capacity, steps).tasks[t].phase.Queued?
    ensures var s, s' := After(capacity, steps), Next(After(capacity, steps), Begin(t));
      var (id, op) := (s.tasks[t].id, s.tasks[t].op);
      if id in s.cache.entries then
        if s.cache.entries[id].fingerprint != op then Answers(s, s', t, Failure(ErrorCode.Conflict))
        else match s.cache.entries[id].slot
          case Complete(r) => Answers(s, s', t, r)
          case Pending => s' == Moved(s, t, Probing)
      else if R.AllPending(s.cache) then Answers(s, s', t, Failure(LimitExceeded))
      else
        && s'.answers == s.answers && s'.tasks[t].phase == (if op.kind.Filesystem? then Working else Claimed)
        && id in s'.cache.entries && s'.cache.entries[id] == R.Entry(op, R.Pending)
  {
    InvAlways(capacity, steps);
    hide R.Admit, R.Valid, R.AllPending, After, RowsOwned, HeldSettled;
    var s := After(capacity, steps);
    R.DecisionIsExact(s.cache, s.tasks[t].id, s.tasks[t].op);
  }

  /** A waiting duplicate sleeps exactly when its second look finds the slot still pending, and once awake, or
      otherwise at once, it begins anew; cancelled, it goes without a trace. */
  lemma {:induction false} WaiterComesBack(capacity: nat, steps: seq<Step>, t: TaskId)
    requires capacity > 0 && t in After(capacity, steps).tasks
    ensures var s := After(capacity, steps); var Task(id, op, phase) := s.tasks[t];
      && (phase.Probing? ==> Next(s, Probe(t)).tasks[t] == Task(id, op,
          if id in s.cache.entries && s.cache.entries[id] == R.Entry(op, R.Pending) then Parked else Queued))
      && (phase.Parked? ==> Next(s, Wake(t)) == Moved(s, t, Queued) && Next(s, Cancel(t)) == s.(tasks := s.tasks - {t}))
  {
    InvAlways(capacity, steps);
    hide R.Admit, R.Valid, After, RowsOwned, HeldSettled;
    var s := After(capacity, steps);
    R.DecisionIsExact(s.cache, s.tasks[t].id, s.tasks[t].op);
    SleeperWakes(s, t);
    if !s.tasks[t].phase.Probing? {
      hide Next;
    }
  }

  lemma {:induction false} SleeperWakes(s: State, t: TaskId)
    requires t in s.tasks
    ensures s.tasks[t].phase.Parked? ==> Next(s, Wake(t)) == Moved(s, t, Queued) && Next(s, Cancel(t)) == s.(tasks := s.tasks - {t})
  {
    hide R.Admit, R.Finish;
  }

  // Terminal and kind of a row are those of its operation, which is a terminal mutation.
  ghost predicate Coherent(rows: J.Mutations) {
    forall id :: id in rows ==>
      var row := rows[id];
      row.terminal == row.fingerprint.terminal && row.kind == row.fingerprint.kind && !row.kind.Filesystem?
  }

  ghost predicate ClaimedForTerminals(tasks: map<TaskId, Task>) {
    forall t :: t in tasks && tasks[t].phase.Claimed? ==> !tasks[t].op.kind.Filesystem?
  }

  lemma {:induction false} RowsAreCoherent(capacity: nat, steps: seq<Step>)
    ensures Coherent(After(capacity, steps).rows) && ClaimedForTerminals(After(capacity, steps).tasks)
  {
    if steps != [] {
      RowsAreCoherent(capacity, steps[..|steps| - 1]);
      StepKeepsCoherent(After(capacity, steps[..|steps| - 1]), steps[|steps| - 1]);
      StepKeepsClaims(After(capacity, steps[..|steps| - 1]), steps[|steps| - 1]);
    }
  }

  lemma {:induction false} StepKeepsCoherent(s: State, step: Step)
    requires Coherent(s.rows) && ClaimedForTerminals(s.tasks)
    ensures Coherent(Next(s, step).rows)
  {
    hide R.Admit, R.Finish;
    if !step.BeginMutation? && !step.Store? {
      hide Coherent, ClaimedForTerminals;
    }
  }

  lemma {:induction false} StepKeepsClaims(s: State, step: Step)
    requires ClaimedForTerminals(s.tasks)
    ensures ClaimedForTerminals(Next(s, step).tasks)
  {
    var s' := Next(s, step);
    if !step.Arrive? && !step.Restart? && step.t in s.tasks {
      MovedTaskClaims(s, step);
      hide Next;
      forall t | t in s'.tasks && s'.tasks[t].phase.Claimed? ensures !s'.tasks[t].op.kind.Filesystem? {
        if t != step.t {
          OthersKeepTheirPlace(s, step, t);
        }
      }
    }
  }

  lemma {:induction false} MovedTaskClaims(s: State, step: Step)
    requires !step.Arrive? && !step.Restart? && step.t in s.tasks
    ensures var s' := Next(s, step);
      step.t in s'.tasks && s'.tasks[step.t].phase.Claimed? && !s.tasks[step.t].phase.Claimed? ==>
        !s'.tasks[step.t].op.kind.Filesystem?
    ensures var s' := Next(s, step); step.t in s'.tasks ==> s'.tasks[step.t].op == s.tasks[step.t].op
  {
    hide R.Admit, R.Finish, J.MutationBegun, J.MutationCompleted;
  }

  // What the journal says to a request that has a row.
  function RowAnswer(row: J.MutationRow, op: Operation): Response {
    if row.fingerprint != op then Failure(ErrorCode.Conflict)
    else match row.status
      case Completed(response) => response
      case MutationPending => Failure(ErrorCode.OutcomeUnknown)
  }

  /** In every run a request that owns its slot is executed exactly when the journal works and has no row for it. With
      a row it is answered the stored response, an unknown outcome, or a conflict, and no row changes. */
  lemma {:induction false} RowDecidesAnswer(capacity: nat, steps: seq<Step>, t: TaskId, fault: bool)
    requires capacity > 0 && t in After(capacity, steps).tasks && After(capacity, steps).tasks[t].phase.Claimed?
    ensures var s := After(capacity, steps); var (id, op) := (s.tasks[t].id, s.tasks[t].op);
      var asked := Next(s, BeginMutation(t, fault)); var s' := Next(asked, Publish(t));
      if fault then Answers(s, s', t, Failure(Internal))
      else if id in s.rows then Answers(s, s', t, RowAnswer(s.rows[id], op))
      else asked == Moved(s.(rows := s.rows[id := J.MutationRow(op.terminal, op.kind, op, J.MutationPending)]), t, Granted)
  {
    RowsAreCoherent(capacity, steps);
    hide R.Admit, R.Finish, After;
  }

  /** What the runtime answers reaches the client, the row and the slot; when the row cannot be written, the client and
      the slot get an unknown outcome, and the row stays pending. */
  lemma {:induction false} ExecutionIsAnswered(capacity: nat, steps: seq<Step>, t: TaskId, r: Response, fault: bool)
    requires capacity > 0 && t in After(capacity, steps).tasks && After(capacity, steps).tasks[t].phase.Granted?
    ensures var s := After(capacity, steps); var (id, op) := (s.tasks[t].id, s.tasks[t].op);
      var s' := Next(Next(Next(Next(s, Dispatch(t)), Respond(t, r)), Store(t, fault)), Publish(t));
      var told := if fault then Failure(OutcomeUnknown) else r;
      && s'.answers == s.answers + [Answer(id, op, told)] && s'.dispatched == s.dispatched + multiset{id}
      && id in s.rows && s'.rows == (if fault then s.rows else s.rows[id := s.rows[id].(status := J.Completed(r))])
      && s'.cache.entries == s.cache.entries[id := R.Entry(op, R.Complete(told))]
  {
    InvAlways(capacity, steps);
    var s := After(capacity, steps);
    var id := s.tasks[t].id;
    hide R.Admit, R.Valid, After;
    var responded := Moved(s.(dispatched := s.dispatched + multiset{id}), t, Responded(r));
    RunAnswers(s, t, r);
    StoreAnswers(responded, t, r, fault);
  }

  lemma {:induction false} RunAnswers(s: State, t: TaskId, r: Response)
    requires t in s.tasks && s.tasks[t].phase.Granted?
    ensures Next(Next(s, Dispatch(t)), Respond(t, r)) ==
      Moved(s.(dispatched := s.dispatched + multiset{s.tasks[t].id}), t, Responded(r))
  {
    hide R.Admit, R.Finish;
  }

  lemma {:induction false} StoreAnswers(s: State, t: TaskId, r: Response, fault: bool)
    requires t in s.tasks && s.tasks[t].phase == Responded(r)
    requires var (id, op) := (s.tasks[t].id, s.tasks[t].op);
      && id in s.rows && s.rows[id].status.MutationPending?
      && id in s.cache.entries && s.cache.entries[id] == R.Entry(op, R.Pending)
    ensures var (id, op) := (s.tasks[t].id, s.tasks[t].op);
      var s' := Next(Next(s, Store(t, fault)), Publish(t));
      var told := if fault then Failure(OutcomeUnknown) else r;
      && s'.answers == s.answers + [Answer(id, op, told)] && s'.dispatched == s.dispatched
      && s'.rows == (if fault then s.rows else s.rows[id := s.rows[id].(status := J.Completed(r))])
      && s'.cache.entries == s.cache.entries[id := R.Entry(op, R.Complete(told))]
  {
    hide R.Admit;
  }

  /** A call that is dropped while it executes fills its slot with an exceeded deadline and leaves its row pending; it
      answers nobody. */
  lemma {:induction false} DroppedCallFillsSlot(capacity: nat, steps: seq<Step>, t: TaskId)
    requires capacity > 0 && t in After(capacity, steps).tasks
    requires var phase := After(capacity, steps).tasks[t].phase; phase.Granted? || phase.Dispatched? || phase.Working?
    ensures var s := After(capacity, steps); var (id, op) := (s.tasks[t].id, s.tasks[t].op);
      var s' := Next(s, Cancel(t));
      && s'.cache.entries == s.cache.entries[id := R.Entry(op, R.Complete(Failure(DeadlineExceeded)))]
      && s' == s.(cache := s'.cache, tasks := s.tasks - {t})
  {
    InvAlways(capacity, steps);
    hide After, RowsOwned, HeldSettled;
    DroppedFills(After(capacity, steps), t);
  }

  lemma {:induction false} DroppedFills(s: State, t: TaskId)
    requires SlotsOwned(s) && t in s.tasks
    requires var phase := s.tasks[t].phase; phase.Granted? || phase.Dispatched? || phase.Working?
    ensures var s' := Next(s, Cancel(t));
      && s' == s.(cache := s'.cache, tasks := s.tasks - {t})
      && s'.cache.entries == s.cache.entries[s.tasks[t].id := R.Entry(s.tasks[t].op, R.Complete(Failure(DeadlineExceeded)))]
  {
    hide R.Admit, R.Valid, R.Finish;
    FinishFrame(s.cache, s.tasks[t].id, s.tasks[t].op, Failure(DeadlineExceeded));
  }

  /** The counterpart for terminals: once a response is stored, after a restart the same operation is answered that
      response from its row, which is left alone, and it is not dispatched again. */
  lemma {:induction false} StoredResponseIsReplayed(
      capacity: nat, steps: seq<Step>, t: TaskId, id: RequestId, r: Response) returns (more: seq<Step>)
    requires capacity > 0 && id in After(capacity, steps).rows && After(capacity, steps).rows[id].status == J.Completed(r)
    ensures var op := After(capacity, steps).rows[id].fingerprint;
      && more == [Restart] + [Arrive(t, id, op)] + [Begin(t)] + [BeginMutation(t, false)] + [Publish(t)]
      && After(capacity, steps + more).answers == After(capacity, steps).answers + [Answer(id, op, r)]
      && After(capacity, steps + more).rows == After(capacity, steps).rows
      && After(capacity, steps + more).dispatched == After(capacity, steps).dispatched
  {
    hide After, Next, Inv;
    var op := After(capacity, steps).rows[id].fingerprint;
    var restarted, arrived := steps + [Restart], steps + [Restart] + [Arrive(t, id, op)];
    AfterOneMore(capacity, steps, Restart);
    AfterOneMore(capacity, restarted, Arrive(t, id, op));
    AfterOneMore(capacity, arrived, Begin(t));
    AfterOneMore(capacity, arrived + [Begin(t)], BeginMutation(t, false));
    AfterOneMore(capacity, arrived + [Begin(t)] + [BeginMutation(t, false)], Publish(t));
    CapacityStays(capacity, steps);
    RowsAreCoherent(capacity, steps);
    more := [Restart] + [Arrive(t, id, op)] + [Begin(t)] + [BeginMutation(t, false)] + [Publish(t)];
    assert steps + more == arrived + [Begin(t)] + [BeginMutation(t, false)] + [Publish(t)];
    RestartForgets(After(capacity, steps));
    RowIsReplayed(After(capacity, restarted), t, id, op, r);
  }

  lemma {:induction false} RowIsReplayed(s: State, t: TaskId, id: RequestId, op: Operation, r: Response)
    requires s.cache == R.Empty(s.cache.capacity) && s.cache.capacity > 0 && t !in s.tasks && !op.kind.Filesystem?
    requires id in s.rows && s.rows[id] == J.MutationRow(op.terminal, op.kind, op, J.Completed(r))
    ensures var s' := Next(Next(Next(Next(s, Arrive(t, id, op)), Begin(t)), BeginMutation(t, false)), Publish(t));
      s'.answers == s.answers + [Answer(id, op, r)] && s'.rows == s.rows && s'.dispatched == s.dispatched
  {
    var arrived := Next(s, Arrive(t, id, op));
    assert R.Admit(arrived.cache, id, op) == (R.Claim(arrived.cache, id, op), R.Execute);
    var begun := Next(arrived, Begin(t));
    assert begun == Moved(arrived.(cache := begun.cache), t, Claimed);
    hide R.Admit, R.Claim, R.Finish;
    var asked := Next(begun, BeginMutation(t, false));
    assert asked == Moved(begun, t, Publishing(r));
  }

  // ---------------------------------------------------------------------------------------------
  // The second probe of a waiting duplicate can claim a slot that nobody will ever complete.

  // A pending slot without an owner.
  ghost predicate Orphaned(s: State, id: RequestId) {
    && id in s.cache.entries && s.cache.entries[id].slot.Pending?
    && forall t :: t in s.tasks && s.tasks[t].id == id ==> !Owns(s.tasks[t].phase)
  }

  // The answers to `id` that a step adds are conflicts.
  ghost predicate OnlyConflicts(s: State, s': State, id: RequestId) {
    forall k :: |s.answers| <= k < |s'.answers| && s'.answers[k].id == id ==>
      s'.answers[k].response == Failure(ErrorCode.Conflict)
  }

  lemma {:induction false} LookKeepsOrphan(s: State, t: TaskId, id: RequestId)
    requires R.Valid(s.cache) && Orphaned(s, id) && t in s.tasks
    ensures var (cache, decision) := R.Admit(s.cache, s.tasks[t].id, s.tasks[t].op);
      && id in cache.entries && cache.entries[id] == s.cache.entries[id]
      && (s.tasks[t].id == id ==> decision == R.Wait || decision == R.Decision.Conflict)
  {
    LookFrame(s.cache, s.tasks[t].id, s.tasks[t].op);
  }

  lemma {:induction false} LookStepKeepsOrphan(s: State, step: Step, id: RequestId)
    requires Inv(s) && Orphaned(s, id) && (step.Begin? || step.Probe?) && step.t in s.tasks
    ensures Orphaned(Next(s, step), id) && OnlyConflicts(s, Next(s, step), id)
  {
    hide R.Valid, R.Admit, Settled, RowsOwned, HeldSettled;
    LookKeepsOrphan(s, step.t, id);
  }

  lemma {:induction false} OthersKeepTheirPlace(s: State, step: Step, t: TaskId)
    requires !step.Restart? && (step.Arrive? || step.t != t || t !in s.tasks)
    ensures t in s.tasks ==> t in Next(s, step).tasks && Next(s, step).tasks[t] == s.tasks[t]
    ensures t !in s.tasks && t in Next(s, step).tasks ==> Next(s, step).tasks[t].phase.Queued?
  {
    hide R.Admit, R.Finish, J.MutationBegun, J.MutationCompleted;
  }

  // Without a look, whoever does not own a slot changes none and gives no answer.
  lemma {:induction false} IdleStepIsIdle(s: State, step: Step)
    requires !step.Arrive? && !step.Restart? && !step.Begin? && !step.Probe?
    requires step.t in s.tasks && !Owns(s.tasks[step.t].phase)
    ensures var s' := Next(s, step);
      s'.cache == s.cache && s'.answers == s.answers && (step.t in s'.tasks ==> !Owns(s'.tasks[step.t].phase))
  {
    hide R.Admit, R.Finish, J.MutationBegun, J.MutationCompleted;
  }

  // Without a look, an owner changes no slot but its own, and answers for its own request only.
  lemma {:induction false} OwnerStepIsLocal(s: State, step: Step, id: RequestId)
    requires !step.Arrive? && !step.Restart? && !step.Begin? && !step.Probe?
    requires step.t in s.tasks && s.tasks[step.t].id != id && id in s.cache.entries
    ensures var s' := Next(s, step);
      && id in s'.cache.entries && s'.cache.entries[id] == s.cache.entries[id] && OnlyConflicts(s, s', id)
      && (step.t in s'.tasks ==> s'.tasks[step.t].id != id)
  {
    hide R.Admit, J.MutationBegun, J.MutationCompleted;
  }

  lemma {:induction false} OrphanStays(s: State, step: Step, id: RequestId)
    requires Inv(s) && Orphaned(s, id) && !step.Restart?
    ensures Orphaned(Next(s, step), id) && OnlyConflicts(s, Next(s, step), id)
  {
    var s' := Next(s, step);
    if (step.Begin? || step.Probe?) && step.t in s.tasks {
      hide Inv, Next, Orphaned, OnlyConflicts;
      LookStepKeepsOrphan(s, step, id);
    } else if step.Arrive? || step.t !in s.tasks {
      assert s'.cache == s.cache && s'.answers == s.answers;
      hide Next, Inv;
      forall u | u in s'.tasks && s'.tasks[u].id == id ensures !Owns(s'.tasks[u].phase) {
        OthersKeepTheirPlace(s, step, u);
      }
    } else {
      hide Next, Inv;
      if s.tasks[step.t].id == id {
        IdleStepIsIdle(s, step);
      } else {
        OwnerStepIsLocal(s, step, id);
      }
      forall u | u in s'.tasks && u != step.t && s'.tasks[u].id == id ensures !Owns(s'.tasks[u].phase) {
        OthersKeepTheirPlace(s, step, u);
      }
    }
  }

  // A second probe that is told to execute, and drops it.
  predicate ProbeClaims(s: State, step: Step, id: RequestId) {
    && step.Probe? && step.t in s.tasks && s.tasks[step.t].phase.Probing? && s.tasks[step.t].id == id
    && R.Admit(s.cache, id, s.tasks[step.t].op).1.Execute?
  }

  lemma {:induction false} ProbeOrphans(s: State, step: Step, id: RequestId)
    requires Inv(s) && ProbeClaims(s, step, id)
    ensures Orphaned(Next(s, step), id)
  {
    hide R.Valid, R.Admit, Settled, RowsOwned, HeldSettled;
    LookFrame(s.cache, id, s.tasks[step.t].op);
  }

  // A pending slot after a step was pending before it, unless the step claimed it.
  lemma {:induction false} LookClaims(s: State, t: TaskId, id: RequestId)
    requires R.Valid(s.cache) && t in s.tasks
    ensures var (cache, decision) := R.Admit(s.cache, s.tasks[t].id, s.tasks[t].op);
      id in cache.entries && cache.entries[id].slot.Pending? ==>
        (id in s.cache.entries && s.cache.entries[id].slot.Pending?) || (id == s.tasks[t].id && decision.Execute?)
  {
    R.BeginFrame(s.cache, s.tasks[t].id, s.tasks[t].op, id);
    LookFrame(s.cache, s.tasks[t].id, s.tasks[t].op);
  }

  lemma {:induction false} OnlyLooksClaim(s: State, step: Step, id: RequestId)
    requires !step.Begin? && !step.Probe?
    ensures var s' := Next(s, step); id in s'.cache.entries && s'.cache.entries[id].slot.Pending? ==>
      id in s.cache.entries && s.cache.entries[id].slot.Pending?
  {
    hide R.Admit, R.OldestComplete;
  }

  // Moving the owner of a slot leaves it an owner, or completes the slot.
  lemma {:induction false} OwnerKeepsOrCompletes(s: State, step: Step)
    requires Inv(s) && !step.Arrive? && !step.Restart? && step.t in s.tasks && Owns(s.tasks[step.t].phase)
    ensures var s', id := Next(s, step), s.tasks[step.t].id;
      || (step.t in s'.tasks && s'.tasks[step.t].id == id && Owns(s'.tasks[step.t].phase))
      || (id in s'.cache.entries && s'.cache.entries[id].slot.Complete?)
  {
    hide R.Valid, R.Admit, Settled, RowsOwned, HeldSettled, J.MutationBegun, J.MutationCompleted;
  }

  lemma {:induction false} BeginnerOwns(s: State, t: TaskId)
    requires t in s.tasks && s.tasks[t].phase.Queued? && R.Admit(s.cache, s.tasks[t].id, s.tasks[t].op).1.Execute?
    ensures t in Next(s, Begin(t)).tasks && Owns(Next(s, Begin(t)).tasks[t].phase)
    ensures Next(s, Begin(t)).tasks[t].id == s.tasks[t].id
  {
    hide R.Admit;
  }

  lemma {:induction false} NewOrphanWasClaimed(s: State, step: Step, id: RequestId)
    requires Inv(s) && !step.Restart? && Orphaned(Next(s, step), id) && !Orphaned(s, id)
    ensures ProbeClaims(s, step, id)
  {
    if id in s.cache.entries && s.cache.entries[id].slot.Pending? {
      hide Next, Inv;
      var t :| t in s.tasks && s.tasks[t].id == id && Owns(s.tasks[t].phase);
      if !step.Arrive? && step.t == t {
        OwnerKeepsOrCompletes(s, step);
      } else {
        OthersKeepTheirPlace(s, step, t);
      }
    } else if step.Begin? || step.Probe? {
      hide R.Valid, R.Admit, Settled, RowsOwned, HeldSettled;
      if step.t in s.tasks {
        LookClaims(s, step.t, id);
        if step.Begin? && s.tasks[step.t].phase.Queued? && R.Admit(s.cache, s.tasks[step.t].id, s.tasks[step.t].op).1.Execute? {
          BeginnerOwns(s, step.t);
        }
      }
    } else {
      hide Next, Inv;
      OnlyLooksClaim(s, step, id);
    }
  }

  /** A step leaves a slot without an owner exactly when the slot had none already, or the step is such a probe. */
  lemma {:induction false} OrphanStepIsExact(s: State, step: Step, id: RequestId)
    requires Inv(s)
    ensures Orphaned(Next(s, step), id) <==> (!step.Restart? && Orphaned(s, id)) || ProbeClaims(s, step, id)
  {
    hide Inv, Next, ProbeClaims;
    if Orphaned(s, id) && !step.Restart? {
      OrphanStays(s, step, id);
    }
    if ProbeClaims(s, step, id) {
      ProbeOrphans(s, step, id);
    }
    if Orphaned(Next(s, step), id) {
      if step.Restart? {
        RestartLeavesNoSlot(s, id);
      } else if !Orphaned(s, id) {
        NewOrphanWasClaimed(s, step, id);
      }
    }
  }

  lemma {:induction false} RestartLeavesNoSlot(s: State, id: RequestId)
    ensures !Orphaned(Next(s, Restart), id)
  {
  }

  // Step m is such a probe, and the daemon has not restarted since.
  ghost predicate ClaimDroppedAt(capacity: nat, steps: seq<Step>, id: RequestId, m: nat) {
    && m < |steps| && ProbeClaims(After(capacity, steps[..m]), steps[m], id)
    && forall n :: m < n < |steps| ==> !steps[n].Restart?
  }

  /** In every run a slot is without an owner exactly when a probe of its request was told to execute since the
      last restart. */
  lemma {:induction false} OrphanIsExact(capacity: nat, steps: seq<Step>, id: RequestId)
    requires capacity > 0
    ensures Orphaned(After(capacity, steps), id) <==> exists m: nat :: ClaimDroppedAt(capacity, steps, id, m)
  {
    hide Next, ProbeClaims, Orphaned;
    if steps == [] {
      NoSlotAtFirst(capacity, id);
    } else {
      var past, step := steps[..|steps| - 1], steps[|steps| - 1];
      OrphanIsExact(capacity, past, id);
      InvAlways(capacity, past);
      hide Inv;
      OrphanStepIsExact(After(capacity, past), step, id);
      if ProbeClaims(After(capacity, past), step, id) {
        assert ClaimDroppedAt(capacity, steps, id, |past|);
      }
      forall m: nat | m < |past| ensures past[..m] == steps[..m] && past[m] == steps[m] {
      }
      if Orphaned(After(capacity, past), id) && !step.Restart? {
        var m: nat :| ClaimDroppedAt(capacity, past, id, m);
        assert ClaimDroppedAt(capacity, steps, id, m);
      }
      forall m: nat | ClaimDroppedAt(capacity, steps, id, m) && m < |past| ensures !step.Restart? && ClaimDroppedAt(capacity, past, id, m) {
        assert steps[|past|] == step;
      }
    }
  }

  lemma {:induction false} NoSlotAtFirst(capacity: nat, id: RequestId)
    ensures !Orphaned(After(capacity, []), id)
  {
  }

  /** Until the daemon restarts such a slot stays, and whoever asks for the request is answered by a conflict or
      not at all. */
  lemma {:induction false} OrphanIsNeverAnswered(capacity: nat, steps: seq<Step>, more: seq<Step>, id: RequestId)
    requires capacity > 0 && Orphaned(After(capacity, steps), id)
    requires forall i :: 0 <= i < |more| ==> !more[i].Restart?
    ensures Orphaned(After(capacity, steps + more), id)
    ensures |After(capacity, steps).answers| <= |After(capacity, steps + more).answers|
    ensures OnlyConflicts(After(capacity, steps), After(capacity, steps + more), id)
  {
    if more == [] {
      assert steps + more == steps;
    } else {
      hide Inv, Orphaned, Next;
      var past, step := more[..|more| - 1], more[|more| - 1];
      assert steps + more == (steps + past) + [step];
      OrphanIsNeverAnswered(capacity, steps, past, id);
      InvAlways(capacity, steps + past);
      AfterOneMore(capacity, steps + past, step);
      StepIsGood(After(capacity, steps + past), step);
      assert After(capacity, steps + past).answers <= After(capacity, steps + more).answers by {
        StepAddsAnswers(After(capacity, steps + past), step);
      }
      OrphanStays(After(capacity, steps + past), step, id);
    }
  }

  lemma {:induction false} StepAddsAnswers(s: State, step: Step)
    requires Inv(s)
    ensures s.answers <= Next(s, step).answers
  {
    hide Inv;
    StepIsGood(s, step);
  }

  const OURS := Operation(Start, 1, 1)
  const THEIRS := Operation(Start, 2, 2)
  const OUR_ID: RequestId := 1
  const THEIR_ID: RequestId := 2

  // One slot. Tasks 1 and 2 carry our request; while task 2 is about to look a second time, task 1 is refused by a
  // failing journal, and task 3 takes the slot for another request and is refused as well.
  const ARRIVED: seq<Step> := [Arrive(1, OUR_ID, OURS), Arrive(2, OUR_ID, OURS), Arrive(3, THEIR_ID, THEIRS)]
  const WAITING: seq<Step> := ARRIVED + [Begin(1)] + [Begin(2)]
  const REFUSED: seq<Step> := WAITING + [BeginMutation(1, true)] + [Publish(1)]
  const EVICTED: seq<Step> := REFUSED + [Begin(3)] + [BeginMutation(3, true)] + [Publish(3)]

  lemma {:induction false} WaitingState() returns (s: State)
    ensures s == After(1, WAITING)
    ensures s.cache == R.Cache(1, map[OUR_ID := R.Entry(OURS, R.Pending)], [OUR_ID])
    ensures s.tasks == map[1 := Task(OUR_ID, OURS, Claimed), 2 := Task(OUR_ID, OURS, Probing), 3 := Task(THEIR_ID, THEIRS, Queued)]
  {
    var a, b, c := Arrive(1, OUR_ID, OURS), Arrive(2, OUR_ID, OURS), Arrive(3, THEIR_ID, THEIRS);
    assert ARRIVED == [] + [a] + [b] + [c];
    AfterOneMore(1, [], a);
    AfterOneMore(1, [] + [a], b);
    AfterOneMore(1, [] + [a] + [b], c);
    assert After(1, []) == State(R.Empty(1), map[], map[], multiset{}, []);
    AfterOneMore(1, ARRIVED, Begin(1));
    AfterOneMore(1, ARRIVED + [Begin(1)], Begin(2));
    s := After(1, WAITING);
  }

  // A task whose journal fails gives its answer and leaves its slot complete.
  lemma {:induction false} RefusalLeavesSlot(steps: seq<Step>, t: TaskId, id: RequestId, op: Operation) returns (s: State)
    requires t in After(1, steps).tasks && After(1, steps).tasks[t] == Task(id, op, Claimed)
    requires After(1, steps).cache == R.Cache(1, map[id := R.Entry(op, R.Pending)], [id])
    ensures s == After(1, steps + [BeginMutation(t, true)] + [Publish(t)])
    ensures s.cache == R.Cache(1, map[id := R.Entry(op, R.Complete(Failure(Internal)))], [id])
    ensures s.tasks == After(1, steps).tasks[t := Task(id, op, Finished)]
  {
    hide After, Next;
    var before := After(1, steps);
    AfterOneMore(1, steps, BeginMutation(t, true));
    JournalRefuses(before, t, id, op);
    AfterOneMore(1, steps + [BeginMutation(t, true)], Publish(t));
    RefusalIsPublished(Next(before, BeginMutation(t, true)), t, id, op);
    s := After(1, steps + [BeginMutation(t, true)] + [Publish(t)]);
  }

  lemma {:induction false} JournalRefuses(s: State, t: TaskId, id: RequestId, op: Operation)
    requires t in s.tasks && s.tasks[t] == Task(id, op, Claimed)
    ensures Next(s, BeginMutation(t, true)) == Moved(s, t, Publishing(Failure(Internal)))
  {
    hide R.Admit, R.Finish;
  }

  lemma {:induction false} RefusalIsPublished(s: State, t: TaskId, id: RequestId, op: Operation)
    requires t in s.tasks && s.tasks[t] == Task(id, op, Publishing(Failure(Internal)))
    requires s.cache == R.Cache(1, map[id := R.Entry(op, R.Pending)], [id])
    ensures Next(s, Publish(t)).cache == R.Cache(1, map[id := R.Entry(op, R.Complete(Failure(Internal)))], [id])
    ensures Next(s, Publish(t)).tasks == s.tasks[t := Task(id, op, Finished)]
  {
    hide R.Admit;
    assert s.cache.entries[id := R.Entry(op, R.Complete(Failure(Internal)))] == map[id := R.Entry(op, R.Complete(Failure(Internal)))];
  }

  // A full cache of one completed entry gives its slot to a new request.
  lemma {:induction false} SlotIsTaken(old_id: RequestId, old_op: Operation, r: Response, id: RequestId, op: Operation)
    requires id != old_id
    ensures R.Admit(R.Cache(1, map[old_id := R.Entry(old_op, R.Complete(r))], [old_id]), id, op) ==
      (R.Cache(1, map[id := R.Entry(op, R.Pending)], [id]), R.Execute)
  {
    var c := R.Cache(1, map[old_id := R.Entry(old_op, R.Complete(r))], [old_id]);
    assert |c.entries| == 1;
    assert R.IsComplete(c.entries, c.order[0]) && R.OldestComplete(c.entries, c.order) == 0;
    var emptied := c.(entries := c.entries - {c.order[0]}, order := c.order[..0] + c.order[1..]);
    assert emptied.entries == map[] && emptied.order == [];
    assert R.Admit(c, id, op).0 == R.Claim(emptied, id, op);
    assert [] + [id] == [id];
  }

  /** It happens: then the second probe claims the slot of our request, and no task owns it. */
  lemma {:induction false} ProbeCanOrphanASlot()
    ensures Orphaned(After(1, EVICTED + [Probe(2)]), OUR_ID)
  {
    hide After, Next, R.Admit;
    var waiting := WaitingState();
    var refused := RefusalLeavesSlot(WAITING, 1, OUR_ID, OURS);
    var taken := SlotPasses(REFUSED, Begin(3), 3, OUR_ID, OURS, THEIR_ID, THEIRS);
    var evicted := RefusalLeavesSlot(REFUSED + [Begin(3)], 3, THEIR_ID, THEIRS);
    var orphaned := SlotPasses(EVICTED, Probe(2), 2, THEIR_ID, THEIRS, OUR_ID, OURS);
  }

  // A task looks for the slot of its request, which a completed entry of another one holds.
  lemma {:induction false} SlotPasses(steps: seq<Step>, look: Step, t: TaskId, old_id: RequestId, old_op: Operation,
                                      id: RequestId, op: Operation) returns (s: State)
    requires var before := After(1, steps);
      before.cache == R.Cache(1, map[old_id := R.Entry(old_op, R.Complete(Failure(Internal)))], [old_id])
    requires id != old_id && !op.kind.Filesystem? && t in After(1, steps).tasks
    requires (look == Begin(t) && After(1, steps).tasks[t] == Task(id, op, Queued))
      || (look == Probe(t) && After(1, steps).tasks[t] == Task(id, op, Probing))
    ensures s == After(1, steps + [look])
    ensures s.cache == R.Cache(1, map[id := R.Entry(op, R.Pending)], [id])
    ensures s.tasks == After(1, steps).tasks[t := Task(id, op, if look.Begin? then Claimed else Queued)]
  {
    hide After, R.Admit;
    SlotIsTaken(old_id, old_op, Failure(Internal), id, op);
    AfterOneMore(1, steps, look);
    s := After(1, steps + [look]);
  }
}

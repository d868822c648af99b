// Terminal input: `PodmanRuntime::input` over the journal's input ledger
// (crates/gobrowse-sandboxd/src/runtime.rs, crates/gobrowse-sandboxd/src/journal.rs). Calls may carry the
// same (terminal, input id) any number of times and under any request id; they interleave at the steps below.
module Inputs {
  import opened Basics
  import opened Protocol
  import opened OutputLog
  import J = Journal

  type Key = (TerminalId, InputId)
  type CallId = nat

  datatype Outcome =
    | Accepted(bytes: nat, replayed: bool)
    | NotRunning
    | OutcomeUnknown
    | Conflict
    | JournalFailed

  datatype Phase =
    | Entered                     // before the ledger is asked
    | Owning                      // the ledger granted this call, the PTY lock is not taken yet
    | Writing                     // bytes are going to the PTY
    | Written                     // the write and its flush succeeded
    | Marking(outcome: Outcome)   // about to mark the row unknown, then to answer

  datatype Call = Call(key: Key, bytes: seq<Byte>, phase: Phase)

  datatype Reply = Reply(key: Key, bytes: seq<Byte>, outcome: Outcome)

  datatype State = State(
    terminals: J.Terminals,
    rows: J.Inputs,
    calls: map<CallId, Call>,
    started: multiset<Key>,            // every write begun, over all daemon lives
    finished: set<(Key, seq<Byte>)>,   // every write completed, with its bytes
    replies: seq<Reply>)

  datatype Step =
    | Enter(c: CallId, key: Key, bytes: seq<Byte>)
    | Refuse(c: CallId)                 // no such session, or it is not running
    | Begin(c: CallId, fault: bool)
    | StartWrite(c: CallId)
    | SeeStopped(c: CallId)             // the session stopped while the call waited for the PTY
    | FinishWrite(c: CallId, ok: bool)  // not ok: an error, a timeout, or no PTY
    | Complete(c: CallId, fault: bool)
    | Mark(c: CallId, fault: bool)
    | Cancel(c: CallId)
    | Register(terminal: TerminalId, row: J.TerminalRow)
    | Restart

  function Moved(s: State, c: CallId, phase: Phase): State
    requires c in s.calls
  {
    s.(calls := s.calls[c := s.calls[c].(phase := phase)])
  }

  function Replied(s: State, c: CallId, outcome: Outcome): State
    requires c in s.calls
  {
    s.(calls := s.calls - {c}, replies := s.replies + [Reply(s.calls[c].key, s.calls[c].bytes, outcome)])
  }

  // A step whose guard does not hold changes nothing.
  function Next(s: State, step: Step): State {
    match step
    case Enter(c, key, bytes) => if c in s.calls then s else s.(calls := s.calls[c := Call(key, bytes, Entered)])
    case Register(id, row) => if id in s.terminals then s else s.(terminals := s.terminals[id := row])
    case Restart => s.(rows := J.InputsAfterRestart(s.rows), calls := map[])
    case _ => if step.c in s.calls then CallStep(s, step, s.calls[step.c]) else s
  }

  function CallStep(s: State, step: Step, call: Call): State
    requires !step.Enter? && !step.Register? && !step.Restart? && step.c in s.calls && call == s.calls[step.c]
  {
    match call.phase
    case Entered =>
      if step.Refuse? then Replied(s, step.c, NotRunning)
      else if step.Begin? then Begun(s, step.c, step.fault)
      else if step.Cancel? then s.(calls := s.calls - {step.c})
      else s
    case Owning =>
      if step.StartWrite? then Moved(s.(started := s.started + multiset{call.key}), step.c, Writing)
      else if step.SeeStopped? then Moved(s, step.c, Marking(NotRunning))
      else if step.Cancel? then s.(calls := s.calls - {step.c})
      else s
    case Writing =>
      if step.FinishWrite? then
        if step.ok then Moved(s.(finished := s.finished + {(call.key, call.bytes)}), step.c, Written)
        else Moved(s, step.c, Marking(Outcome.OutcomeUnknown))
      else if step.Cancel? then s.(calls := s.calls - {step.c})
      else s
    case Written => if step.Complete? then Completed(s, step.c, step.fault) else s
    case Marking(outcome) =>
      if step.Mark? then
        Replied(s.(rows := if step.fault then s.rows else J.InputMarkedUnknown(s.rows, call.key)), step.c, outcome)
      else s
  }

  function Begun(s: State, c: CallId, fault: bool): State
    requires c in s.calls
  {
    var (rows, r) :=
      if fault then (s.rows, Err(Sqlite)) else J.InputBegun(s.terminals, s.rows, s.calls[c].key, s.calls[c].bytes);
    var s' := s.(rows := rows);
    match r
    case Ok(ExecuteInput) => Moved(s', c, Owning)
    case Ok(AppliedBefore(bytes)) => Replied(s', c, Accepted(bytes, true))
    case Err(Conflict) => Replied(s', c, Outcome.Conflict)
    case Err(OutcomeUnknown) => Replied(s', c, Outcome.OutcomeUnknown)
    case Err(_) => Replied(s', c, JournalFailed)
  }

  function Completed(s: State, c: CallId, fault: bool): State
    requires c in s.calls
  {
    var call := s.calls[c];
    var (rows, r) := if fault then (s.rows, Err(Sqlite)) else J.InputCompleted(s.rows, call.key, |call.bytes|);
    if r.Ok? then Replied(s.(rows := rows), c, Accepted(|call.bytes|, false))
    else Moved(s.(rows := rows), c, Marking(Outcome.OutcomeUnknown))
  }

  function After(steps: seq<Step>): State {
    if steps == [] then State(map[], map[], map[], multiset{}, {}, [])
    else Next(After(steps[..|steps| - 1]), steps[|steps| - 1])
  }

  // ---------------------------------------------------------------------------------------------
  // What every step keeps.

  predicate Owns(phase: Phase) { !phase.Entered? }

  predicate HasOwner(s: State, key: Key) {
    exists c :: c in s.calls && s.calls[c].key == key && Owns(s.calls[c].phase)
  }

  ghost predicate CallsOwn(s: State) {
    && (forall c :: c in s.calls && Owns(s.calls[c].phase) ==>
          s.calls[c].key in s.rows && s.rows[s.calls[c].key] == J.InputRow(s.calls[c].bytes, J.InputPending))
    && (forall c :: c in s.calls && s.calls[c].phase.Owning? ==> s.calls[c].key !in s.started)
    && (forall c :: c in s.calls && s.calls[c].phase.Written? ==> (s.calls[c].key, s.calls[c].bytes) in s.finished)
    && (forall c :: c in s.calls && s.calls[c].phase.Marking? ==> !s.calls[c].phase.outcome.Accepted?)
  }

  ghost predicate OwnersDiffer(calls: map<CallId, Call>) {
    forall c, d :: c in calls && d in calls && c != d && Owns(calls[c].phase) && Owns(calls[d].phase) ==>
      calls[c].key != calls[d].key
  }

  ghost predicate RowsTrue(rows: J.Inputs, started: multiset<Key>, finished: set<(Key, seq<Byte>)>) {
    && (forall key :: started[key] <= 1)
    && (forall key :: key in started ==> key in rows)
    && (forall key :: key in rows && rows[key].status.Applied? ==>
          rows[key].status.bytes == |rows[key].fingerprint| && (key, rows[key].fingerprint) in finished)
  }

  ghost predicate RepliesTrue(replies: seq<Reply>, finished: set<(Key, seq<Byte>)>) {
    forall k :: 0 <= k < |replies| ==> Truthful(finished, replies[k])
  }

  ghost predicate Truthful(finished: set<(Key, seq<Byte>)>, reply: Reply) {
    reply.outcome.Accepted? ==>
      (reply.key, reply.bytes) in finished && reply.outcome.bytes == |reply.bytes|
  }

  ghost predicate Inv(s: State) {
    && CallsOwn(s)
    && OwnersDiffer(s.calls)
    && RowsTrue(s.rows, s.started, s.finished)
    && RepliesTrue(s.replies, s.finished)
  }

  // An input that nobody owns any more and that was not applied.
  ghost predicate Lost(s: State, key: Key) {
    key in s.rows && !s.rows[key].status.Applied? && !HasOwner(s, key)
  }

  // What a step of call c may touch beside its own key, and what it owes for that key.
  ghost predicate OtherKeysFramed(s: State, s': State, c: CallId)
    requires c in s.calls
  {
    var key := s.calls[c].key;
    && s'.calls - {c} == s.calls - {c}
    && (c in s'.calls ==> s'.calls[c].key == key && s'.calls[c].bytes == s.calls[c].bytes)
    && s'.rows - {key} == s.rows - {key}
    && (forall other :: other != key ==> s'.started[other] == s.started[other])
    && s.finished <= s'.finished
  }

  ghost predicate OwnKeyJustified(s: State, s': State, c: CallId)
    requires c in s.calls
  {
    var key, bytes, owned := s.calls[c].key, s.calls[c].bytes, Owns(s.calls[c].phase);
    && (c in s'.calls && Owns(s'.calls[c].phase) ==>
          (owned || key !in s.rows) && key in s'.rows && s'.rows[key] == J.InputRow(bytes, J.InputPending))
    && (c in s'.calls && s'.calls[c].phase.Owning? ==> key !in s'.started)
    && (c in s'.calls && s'.calls[c].phase.Written? ==> (key, bytes) in s'.finished)
    && (c in s'.calls && s'.calls[c].phase.Marking? ==> !s'.calls[c].phase.outcome.Accepted?)
    && (key in s.rows ==> key in s'.rows)
    && (!owned && key in s.rows ==> s'.rows[key] == s.rows[key])
    && s'.started[key] <= 1 && (key in s'.started ==> key in s'.rows)
    && (s'.started != s.started ==> owned)
    && (key in s'.rows && s'.rows[key].status.Applied? ==>
          s'.rows[key].status.bytes == |s'.rows[key].fingerprint| && (key, s'.rows[key].fingerprint) in s'.finished)
  }

  ghost predicate ReplyJustified(s: State, s': State, c: CallId)
    requires c in s.calls
  {
    || s'.replies == s.replies
    || (exists outcome :: s'.replies == s.replies + [Reply(s.calls[c].key, s.calls[c].bytes, outcome)]
          && Truthful(s'.finished, Reply(s.calls[c].key, s.calls[c].bytes, outcome)))
  }

  lemma {:induction false} CallsStayOwned(s: State, s': State, c: CallId)
    requires Inv(s) && c in s.calls && OtherKeysFramed(s, s', c) && OwnKeyJustified(s, s', c)
    ensures CallsOwn(s') && OwnersDiffer(s'.calls)
  {
    hide RowsTrue, RepliesTrue;
    var key := s.calls[c].key;
    forall d | d in s'.calls && d != c
      ensures d in s.calls && s'.calls[d] == s.calls[d]
      ensures Owns(s'.calls[d].phase) ==>
        s'.calls[d].key in s'.rows && s'.rows[s'.calls[d].key] == J.InputRow(s'.calls[d].bytes, J.InputPending)
      ensures Owns(s'.calls[d].phase) && c in s'.calls && Owns(s'.calls[c].phase) ==> s'.calls[d].key != key
      ensures s'.calls[d].phase.Owning? ==> s'.calls[d].key !in s'.started
    {
      assert d in s'.calls - {c};
      assert d in s.calls && s'.calls[d] == s.calls[d];
      if s.calls[d].key != key && Owns(s.calls[d].phase) {
        assert s.calls[d].key in s.rows - {key};
      }
    }
  }

  lemma {:induction false} OtherRowStays(s: State, s': State, c: CallId, other: Key)
    requires c in s.calls && OtherKeysFramed(s, s', c) && other != s.calls[c].key
    ensures other in s.rows <==> other in s'.rows
    ensures other in s.rows ==> s'.rows[other] == s.rows[other]
    ensures s'.started[other] == s.started[other]
  {
    var key := s.calls[c].key;
    assert other in s.rows <==> other in s.rows - {key};
    assert other in s'.rows <==> other in s'.rows - {key};
  }

  lemma {:induction false} RowsStayTrue(s: State, s': State, c: CallId)
    requires Inv(s) && c in s.calls && OtherKeysFramed(s, s', c) && OwnKeyJustified(s, s', c)
    ensures RowsTrue(s'.rows, s'.started, s'.finished)
  {
    hide CallsOwn, OwnersDiffer, RepliesTrue;
    assert s.finished <= s'.finished;
    forall other | other != s.calls[c].key
      ensures other in s.rows <==> other in s'.rows
      ensures other in s.rows ==> s'.rows[other] == s.rows[other]
      ensures s'.started[other] == s.started[other]
    {
      OtherRowStays(s, s', c, other);
    }
    hide OtherKeysFramed;
  }

  lemma {:induction false} JustifiedKeepsInv(s: State, s': State, c: CallId)
    requires Inv(s) && c in s.calls && OtherKeysFramed(s, s', c)
    requires OwnKeyJustified(s, s', c) && ReplyJustified(s, s', c)
    ensures Inv(s') && s.replies <= s'.replies
  {
    CallsStayOwned(s, s', c);
    RowsStayTrue(s, s', c);
    hide CallsOwn, OwnersDiffer, RowsTrue;
    forall k | 0 <= k < |s'.replies| ensures Truthful(s'.finished, s'.replies[k]) {
      if k < |s.replies| {
        assert Truthful(s.finished, s.replies[k]);
      }
    }
  }

  ghost predicate Justified(s: State, s': State, c: CallId)
    requires c in s.calls
  {
    OtherKeysFramed(s, s', c) && OwnKeyJustified(s, s', c) && ReplyJustified(s, s', c)
  }

  lemma {:induction false} BeginIsJustified(s: State, c: CallId, fault: bool)
    requires Inv(s) && c in s.calls && s.calls[c].phase.Entered?
    ensures Justified(s, Begun(s, c, fault), c)
  {
    hide CallsOwn, OwnersDiffer, RepliesTrue;
    var s', call := Begun(s, c, fault), s.calls[c];
    if call.key in s.rows && s.rows[call.key].status.Applied? && s.rows[call.key].fingerprint == call.bytes {
      assert Truthful(s'.finished, Reply(call.key, call.bytes, Accepted(s.rows[call.key].status.bytes, true)));
    }
    assert OtherKeysFramed(s, s', c);
  }

  lemma {:induction false} EnteredStepIsJustified(s: State, step: Step)
    requires Inv(s) && !step.Enter? && !step.Register? && !step.Restart?
    requires step.c in s.calls && s.calls[step.c].phase.Entered?
    ensures Justified(s, Next(s, step), step.c)
  {
    hide CallsOwn, OwnersDiffer, RepliesTrue;
    if step.Begin? {
      BeginIsJustified(s, step.c, step.fault);
    } else {
      var s' := Next(s, step);
      assert step.Refuse? ==> Truthful(s'.finished, Reply(s.calls[step.c].key, s.calls[step.c].bytes, NotRunning));
      assert OtherKeysFramed(s, s', step.c);
    }
  }

  lemma {:induction false} CompleteIsJustified(s: State, c: CallId, fault: bool)
    requires Inv(s) && c in s.calls && s.calls[c].phase.Written?
    ensures Justified(s, Completed(s, c, fault), c)
  {
    hide OwnersDiffer, RepliesTrue;
    var s', call := Completed(s, c, fault), s.calls[c];
    assert OtherKeysFramed(s, s', c);
    assert Truthful(s'.finished, Reply(call.key, call.bytes, Accepted(|call.bytes|, false)));
  }

  lemma {:induction false} MarkIsJustified(s: State, c: CallId, fault: bool)
    requires Inv(s) && c in s.calls && s.calls[c].phase.Marking?
    ensures Justified(s, Next(s, Mark(c, fault)), c)
  {
    hide OwnersDiffer, RepliesTrue;
    var s', call := Next(s, Mark(c, fault)), s.calls[c];
    assert OtherKeysFramed(s, s', c);
    assert Truthful(s'.finished, Reply(call.key, call.bytes, call.phase.outcome));
  }

  lemma {:induction false} OwningStepIsJustified(s: State, step: Step)
    requires Inv(s) && !step.Enter? && !step.Register? && !step.Restart?
    requires step.c in s.calls && s.calls[step.c].phase.Owning?
    ensures Justified(s, Next(s, step), step.c)
  {
    hide OwnersDiffer, RepliesTrue;
    assert OtherKeysFramed(s, Next(s, step), step.c);
    hide OtherKeysFramed;
    assert ReplyJustified(s, Next(s, step), step.c);
  }

  lemma {:induction false} WritingStepIsJustified(s: State, step: Step)
    requires Inv(s) && !step.Enter? && !step.Register? && !step.Restart?
    requires step.c in s.calls && s.calls[step.c].phase.Writing?
    ensures Justified(s, Next(s, step), step.c)
  {
    hide OwnersDiffer, RepliesTrue;
    assert OtherKeysFramed(s, Next(s, step), step.c);
    hide OtherKeysFramed;
    assert ReplyJustified(s, Next(s, step), step.c);
  }

  lemma {:induction false} CallStepIsJustified(s: State, step: Step)
    requires Inv(s) && !step.Enter? && !step.Register? && !step.Restart? && step.c in s.calls
    ensures Justified(s, Next(s, step), step.c)
  {
    hide OwnersDiffer, RepliesTrue;
    match s.calls[step.c].phase
    case Entered => EnteredStepIsJustified(s, step);
    case Owning => OwningStepIsJustified(s, step);
    case Writing => WritingStepIsJustified(s, step);
    case Written => if step.Complete? { CompleteIsJustified(s, step.c, step.fault); }
    case Marking(_) => if step.Mark? { MarkIsJustified(s, step.c, step.fault); }
  }

  lemma {:induction false} RestartKeepsInv(s: State)
    requires Inv(s)
    ensures Inv(Next(s, Restart))
  {
    hide RepliesTrue;
  }

  lemma {:induction false} EnterKeepsInv(s: State, c: CallId, key: Key, bytes: seq<Byte>)
    requires Inv(s) && c !in s.calls
    ensures Inv(Next(s, Enter(c, key, bytes)))
  {
    hide RowsTrue, RepliesTrue;
    var s' := Next(s, Enter(c, key, bytes));
    forall d | d in s'.calls && Owns(s'.calls[d].phase) ensures d in s.calls && s.calls[d] == s'.calls[d] {
    }
  }

  lemma {:induction false} RegisterKeepsInv(s: State, step: Step)
    requires Inv(s) && step.Register?
    ensures Inv(Next(s, step))
  {
    hide OwnersDiffer, RowsTrue, RepliesTrue;
  }

  lemma {:induction false} StepKeepsInv(s: State, step: Step)
    requires Inv(s)
    ensures Inv(Next(s, step)) && s.replies <= Next(s, step).replies
  {
    hide Inv, OtherKeysFramed, OwnKeyJustified, ReplyJustified;
    if step.Restart? {
      RestartKeepsInv(s);
    } else if step.Enter? {
      if step.c !in s.calls {
        EnterKeepsInv(s, step.c, step.key, step.bytes);
      }
    } else if step.Register? {
      RegisterKeepsInv(s, step);
    } else if step.c in s.calls {
      CallStepIsJustified(s, step);
      JustifiedKeepsInv(s, Next(s, step), step.c);
    }
  }

  lemma {:induction false} InvAlways(steps: seq<Step>)
    ensures Inv(After(steps))
  {
    if steps != [] {
      InvAlways(steps[..|steps| - 1]);
      StepKeepsInv(After(steps[..|steps| - 1]), steps[|steps| - 1]);
    }
  }

  // ---------------------------------------------------------------------------------------------
  // What clients rely on.

  /** Whatever requests carry an input and however often the daemon restarts, its write to the PTY is
      begun at most once. */
  lemma {:induction false} WrittenAtMostOnce(steps: seq<Step>, key: Key)
    ensures After(steps).started[key] <= 1
  {
    InvAlways(steps);
  }

  /** Every acceptance, replayed or not, follows a completed write of exactly these bytes and reports
      their number. */
  lemma {:induction false} AcceptedMeansWritten(steps: seq<Step>, k: nat)
    requires k < |After(steps).replies| && After(steps).replies[k].outcome.Accepted?
    ensures var reply := After(steps).replies[k];
      (reply.key, reply.bytes) in After(steps).finished && reply.outcome.bytes == |reply.bytes|
  {
    InvAlways(steps);
  }

  // The step adds no acceptance for `key` and begins no write for it.
  ghost predicate StaysLost(s: State, s': State, key: Key) {
    && Lost(s', key) && key in s.rows && s'.rows[key].fingerprint == s.rows[key].fingerprint
    && s'.started[key] == s.started[key]
    && (forall k :: |s.replies| <= k < |s'.replies| && s'.replies[k].key == key ==> !s'.replies[k].outcome.Accepted?)
  }

  lemma {:induction false} OtherKeyStaysLost(s: State, s': State, c: CallId, key: Key)
    requires c in s.calls && key != s.calls[c].key && Lost(s, key)
    requires OtherKeysFramed(s, s', c) && ReplyJustified(s, s', c)
    ensures StaysLost(s, s', key)
  {
    assert key in s.rows - {s.calls[c].key};
    assert key in s'.rows - {s.calls[c].key};
    forall d | d in s'.calls && d != c ensures d in s.calls && s.calls[d] == s'.calls[d] {
      assert d in s'.calls - {c};
      assert d in s.calls - {c};
    }
  }

  lemma {:induction false} OwnKeyStaysLost(s: State, step: Step)
    requires !step.Enter? && !step.Register? && !step.Restart? && step.c in s.calls
    requires Lost(s, s.calls[step.c].key)
    ensures StaysLost(s, Next(s, step), s.calls[step.c].key)
  {
    assert s.calls[step.c].phase.Entered?;
    var s' := Next(s, step);
    assert s'.calls == s.calls || s'.calls == s.calls - {step.c};
  }

  lemma {:induction false} LostStepStaysLost(s: State, step: Step, key: Key)
    requires Inv(s) && Lost(s, key)
    ensures StaysLost(s, Next(s, step), key)
  {
    hide Inv;
    if !step.Enter? && !step.Register? && !step.Restart? && step.c in s.calls {
      if s.calls[step.c].key == key {
        OwnKeyStaysLost(s, step);
      } else {
        CallStepIsJustified(s, step);
        OtherKeyStaysLost(s, Next(s, step), step.c, key);
      }
    }
  }

  lemma {:induction false} AfterOneMore(steps: seq<Step>, step: Step)
    ensures After(steps + [step]) == Next(After(steps), step)
  {
    assert (steps + [step])[..|steps|] == steps;
  }

  /** A restart before an owned input was applied loses it, the crash after a completed write included; so does
      cancelling a call that waits for the PTY or writes to it. */
  lemma {:induction false} CancelAndCrashLose(steps: seq<Step>, c: CallId)
    requires c in After(steps).calls && Owns(After(steps).calls[c].phase)
    ensures Lost(Next(After(steps), Restart), After(steps).calls[c].key)
    ensures Next(After(steps), Restart).rows[After(steps).calls[c].key] == J.InputRow(After(steps).calls[c].bytes, J.Unknown)
    ensures After(steps).calls[c].phase.Owning? || After(steps).calls[c].phase.Writing? ==>
      Lost(Next(After(steps), Cancel(c)), After(steps).calls[c].key)
  {
    InvAlways(steps);
    hide After, RowsTrue, RepliesTrue;
    var s := After(steps);
    OwnedIsPending(s, c);
    RestartLoses(s, s.calls[c].key);
    if s.calls[c].phase.Owning? || s.calls[c].phase.Writing? {
      LeavingLoses(s, Next(s, Cancel(c)), c);
    }
  }

  /** A failed or timed-out write, and a completion that the journal refuses, end in a lost input too, once the call
      has marked it and answered, whether or not the mark reaches the journal. */
  lemma {:induction false} FailuresLose(steps: seq<Step>, c: CallId, fault: bool)
    requires c in After(steps).calls
    ensures var s := After(steps); var phase := s.calls[c].phase;
      && (phase.Writing? ==> Next(s, FinishWrite(c, false)).calls[c].phase == Marking(Outcome.OutcomeUnknown))
      && (phase.Written? ==> Next(s, Complete(c, true)).calls[c].phase == Marking(Outcome.OutcomeUnknown))
      && (phase.Marking? ==> Lost(Next(s, Mark(c, fault)), s.calls[c].key))
      && (phase.Marking? ==>
        Next(s, Mark(c, fault)).replies == s.replies + [Reply(s.calls[c].key, s.calls[c].bytes, phase.outcome)])
  {
    InvAlways(steps);
    hide After, RowsTrue, RepliesTrue;
    var s := After(steps);
    if s.calls[c].phase.Marking? {
      OwnedIsPending(s, c);
      LeavingLoses(s, Next(s, Mark(c, fault)), c);
    }
  }

  lemma {:induction false} OwnedIsPending(s: State, c: CallId)
    requires CallsOwn(s) && c in s.calls && Owns(s.calls[c].phase)
    ensures s.calls[c].key in s.rows && s.rows[s.calls[c].key] == J.InputRow(s.calls[c].bytes, J.InputPending)
  {
  }

  lemma {:induction false} RestartLoses(s: State, key: Key)
    requires key in s.rows && s.rows[key].status.InputPending?
    ensures Lost(Next(s, Restart), key) && Next(s, Restart).rows[key] == J.InputRow(s.rows[key].fingerprint, J.Unknown)
  {
  }

  // The owner is gone, and the row is not applied.
  lemma {:induction false} LeavingLoses(s: State, s': State, c: CallId)
    requires OwnersDiffer(s.calls) && c in s.calls && Owns(s.calls[c].phase)
    requires s'.calls == s.calls - {c} && s.calls[c].key in s'.rows && !s'.rows[s.calls[c].key].status.Applied?
    ensures Lost(s', s.calls[c].key)
  {
  }

  /** An input left pending by a cancelled call or a crash, or marked unknown, is never written again and
      never reported as accepted, by any later call of any later daemon life. */
  lemma {:induction false} LostForever(steps: seq<Step>, more: seq<Step>, key: Key)
    requires Lost(After(steps), key)
    ensures StaysLost(After(steps), After(steps + more), key)
  {
    if more == [] {
      assert steps + more == steps;
    } else {
      var past, step := more[..|more| - 1], more[|more| - 1];
      assert steps + more == (steps + past) + [step];
      hide Inv, Next, Lost;
      LostForever(steps, past, key);
      InvAlways(steps + past);
      LostStepStaysLost(After(steps + past), step, key);
      StepKeepsInv(After(steps + past), step);
      AfterOneMore(steps + past, step);
    }
  }

  /** Asking again for such an input with the same bytes answers that the outcome is unknown, exactly
      when the journal works; with other bytes it is a conflict. */
  lemma {:induction false} LostAnswersUnknown(steps: seq<Step>, c: CallId, fault: bool)
    requires c in After(steps).calls && After(steps).calls[c].phase.Entered? && Lost(After(steps), After(steps).calls[c].key)
    ensures var s := After(steps); var call := s.calls[c];
      Next(s, Begin(c, fault)).replies == s.replies + [Reply(call.key, call.bytes,
        if fault then JournalFailed
        else if s.rows[call.key].fingerprint == call.bytes then Outcome.OutcomeUnknown
        else Outcome.Conflict)]
  {
  }

  // ---------------------------------------------------------------------------------------------
  // What a call is answered, exactly.

  /** In every run, by the row that its key has: a new input of a recorded terminal is granted; the bytes that were
      applied are accepted as a replay, with their number; the bytes of any other row are of unknown outcome; other
      bytes conflict; and a failing ledger says so. */
  lemma {:induction false} LedgerDecidesAnswer(steps: seq<Step>, c: CallId, fault: bool)
    requires c in After(steps).calls && After(steps).calls[c].phase.Entered?
    ensures var s := After(steps); var s' := Next(s, Begin(c, fault)); var Call(key, bytes, _) := s.calls[c];
      if !fault && key !in s.rows && key.0 in s.terminals
      then s' == Moved(s.(rows := s.rows[key := J.InputRow(bytes, J.InputPending)]), c, Owning)
      else s' == Replied(s, c,
        if fault || key !in s.rows then JournalFailed
        else if s.rows[key].fingerprint != bytes then Outcome.Conflict
        else if s.rows[key].status.Applied? then Accepted(|bytes|, true)
        else Outcome.OutcomeUnknown)
  {
    InvAlways(steps);
    hide After, CallsOwn, OwnersDiffer, RepliesTrue;
  }

  /** A granted input that meets neither a failure nor a stopped session is written and accepted. */
  lemma {:induction false} UndisturbedInputIsAccepted(steps: seq<Step>, c: CallId)
    requires c in After(steps).calls && After(steps).calls[c].phase.Owning? && |After(steps).calls[c].bytes| < I64_LIMIT
    ensures var s := After(steps); var Call(key, bytes, _) := s.calls[c];
      Next(Next(Next(s, StartWrite(c)), FinishWrite(c, true)), Complete(c, false)) ==
        Replied(s.(rows := s.rows[key := J.InputRow(bytes, J.Applied(|bytes|))],
                   started := s.started + multiset{key}, finished := s.finished + {(key, bytes)}), c, Accepted(|bytes|, false))
  {
    InvAlways(steps);
    hide After, RowsTrue, OwnersDiffer, RepliesTrue;
    var s := After(steps);
    var Call(key, bytes, _) := s.calls[c];
    var writing := Moved(s.(started := s.started + multiset{key}), c, Writing);
    var written := Moved(s.(started := s.started + multiset{key}, finished := s.finished + {(key, bytes)}), c, Written);
    assert Next(s, StartWrite(c)) == writing && Next(writing, FinishWrite(c, true)) == written;
    hide CallsOwn;
    WrittenIsAccepted(written, c);
  }

  lemma {:induction false} WrittenIsAccepted(s: State, c: CallId)
    requires c in s.calls && s.calls[c].phase.Written? && |s.calls[c].bytes| < I64_LIMIT
    requires s.calls[c].key in s.rows && s.rows[s.calls[c].key] == J.InputRow(s.calls[c].bytes, J.InputPending)
    ensures var Call(key, bytes, _) := s.calls[c];
      Next(s, Complete(c, false)) ==
        Replied(s.(rows := s.rows[key := J.InputRow(bytes, J.Applied(|bytes|))]), c, Accepted(|bytes|, false))
  {
  }

  /** A call cancelled before it asks leaves no trace. A session that is not running is reported so, and an input granted before that was seen is of unknown outcome. */
  lemma {:induction false} StoppedSessionIsReported(steps: seq<Step>, c: CallId)
    requires c in After(steps).calls
    ensures var s := After(steps); var Call(key, bytes, phase) := s.calls[c];
      && (phase.Entered? ==> Next(s, Refuse(c)) == Replied(s, c, NotRunning) && Next(s, Cancel(c)) == s.(calls := s.calls - {c}))
      && (phase.Owning? ==>
        Next(Next(s, SeeStopped(c)), Mark(c, false)) == Replied(s.(rows := s.rows[key := J.InputRow(bytes, J.Unknown)]), c, NotRunning))
  {
    InvAlways(steps);
    hide After, RowsTrue, OwnersDiffer, RepliesTrue;
  }

  // Every accepted input has its row.
  ghost predicate AcceptedHasRow(rows: J.Inputs, replies: seq<Reply>) {
    forall k :: 0 <= k < |replies| && replies[k].outcome.Accepted? ==> RowOf(rows, replies[k].key, replies[k].bytes)
  }

  predicate RowOf(rows: J.Inputs, key: Key, bytes: seq<Byte>) {
    key in rows && rows[key] == J.InputRow(bytes, J.Applied(|bytes|))
  }

  lemma {:induction false} AppliedStays(s: State, step: Step, key: Key, bytes: seq<Byte>)
    requires RowOf(s.rows, key, bytes)
    ensures RowOf(Next(s, step).rows, key, bytes)
  {
  }

  // A step adds at most one reply, and an acceptance only with its row.
  ghost predicate AddsWithRow(s: State, s': State) {
    || s'.replies == s.replies
    || exists reply :: s'.replies == s.replies + [reply] && (reply.outcome.Accepted? ==> RowOf(s'.rows, reply.key, reply.bytes))
  }

  lemma {:induction false} BegunAddsWithRow(s: State, c: CallId, fault: bool)
    requires RowsTrue(s.rows, s.started, s.finished) && c in s.calls
    ensures AddsWithRow(s, Begun(s, c, fault))
  {
    var s', call := Begun(s, c, fault), s.calls[c];
    if s'.replies != s.replies {
      var reply := s'.replies[|s.replies|];
      assert s'.replies == s.replies + [reply];
    }
  }

  lemma {:induction false} CompletedAddsWithRow(s: State, c: CallId, fault: bool)
    requires CallsOwn(s) && c in s.calls && s.calls[c].phase.Written?
    ensures AddsWithRow(s, Completed(s, c, fault))
  {
    var s', call := Completed(s, c, fault), s.calls[c];
    if s'.replies != s.replies {
      assert s'.replies == s.replies + [Reply(call.key, call.bytes, Accepted(|call.bytes|, false))];
    }
  }

  lemma {:induction false} MarkAddsWithRow(s: State, c: CallId, fault: bool)
    requires CallsOwn(s) && c in s.calls && s.calls[c].phase.Marking?
    ensures AddsWithRow(s, Next(s, Mark(c, fault)))
  {
    hide RowOf, J.InputMarkedUnknown;
    var call := s.calls[c];
    assert Next(s, Mark(c, fault)).replies == s.replies + [Reply(call.key, call.bytes, call.phase.outcome)];
  }

  lemma {:induction false} OtherStepAddsNoAcceptance(s: State, step: Step)
    requires !step.Begin? && !step.Complete? && !step.Mark?
    ensures AddsWithRow(s, Next(s, step))
  {
    hide RowOf, J.InputsAfterRestart;
    if step.Refuse? && step.c in s.calls && s.calls[step.c].phase.Entered? {
      assert Next(s, step).replies == s.replies + [Reply(s.calls[step.c].key, s.calls[step.c].bytes, NotRunning)];
    }
  }

  lemma {:induction false} StepAddsWithRow(s: State, step: Step)
    requires Inv(s)
    ensures AddsWithRow(s, Next(s, step))
  {
    hide CallsOwn, OwnersDiffer, RowsTrue, RepliesTrue, AddsWithRow, Begun, Completed;
    if (step.Begin? || step.Complete? || step.Mark?) && step.c in s.calls {
      StutterAddsNothing(s);
      match s.calls[step.c].phase
      case Entered => if step.Begin? { BegunAddsWithRow(s, step.c, step.fault); }
      case Written => if step.Complete? { CompletedAddsWithRow(s, step.c, step.fault); }
      case Marking(_) => if step.Mark? { MarkAddsWithRow(s, step.c, step.fault); }
      case _ =>
    } else if step.Begin? || step.Complete? || step.Mark? {
      StutterAddsNothing(s);
    } else {
      OtherStepAddsNoAcceptance(s, step);
    }
  }

  lemma {:induction false} StutterAddsNothing(s: State)
    ensures AddsWithRow(s, s)
  {
  }

  lemma {:induction false} AcceptedAlwaysHasRow(steps: seq<Step>)
    ensures AcceptedHasRow(After(steps).rows, After(steps).replies)
  {
    if steps != [] {
      var past, step := steps[..|steps| - 1], steps[|steps| - 1];
      AcceptedAlwaysHasRow(past);
      InvAlways(past);
      hide Next, Inv, RowOf;
      StepAddsWithRow(After(past), step);
      RowsOutlive(After(past), step);
    }
  }

  lemma {:induction false} RowsOutlive(s: State, step: Step)
    requires AcceptedHasRow(s.rows, s.replies) && AddsWithRow(s, Next(s, step))
    ensures AcceptedHasRow(Next(s, step).rows, Next(s, step).replies)
  {
    hide Next, RowOf;
    var s' := Next(s, step);
    forall k | 0 <= k < |s'.replies| && s'.replies[k].outcome.Accepted?
      ensures RowOf(s'.rows, s'.replies[k].key, s'.replies[k].bytes)
    {
      if k < |s.replies| {
        assert s'.replies[k] == s.replies[k];
        AppliedStays(s, step, s.replies[k].key, s.replies[k].bytes);
      }
    }
  }

  lemma {:induction false} RowStays(steps: seq<Step>, more: seq<Step>, key: Key, bytes: seq<Byte>)
    requires RowOf(After(steps).rows, key, bytes)
    ensures RowOf(After(steps + more).rows, key, bytes)
  {
    hide Next, RowOf;
    if more == [] {
      assert steps + more == steps;
    } else {
      var past, step := more[..|more| - 1], more[|more| - 1];
      assert steps + more == (steps + past) + [step];
      RowStays(steps, past, key, bytes);
      AfterOneMore(steps + past, step);
      AppliedStays(After(steps + past), step, key, bytes);
    }
  }

  /** An input that was once accepted is accepted again, as a replay, whoever asks in any continuation, restarts
      included; and exactly other bytes conflict. */
  lemma {:induction false} AcceptedIsReplayed(steps: seq<Step>, more: seq<Step>, k: nat, c: CallId)
    requires k < |After(steps).replies| && After(steps).replies[k].outcome.Accepted?
    requires c in After(steps + more).calls && After(steps + more).calls[c].phase.Entered?
    requires After(steps + more).calls[c].key == After(steps).replies[k].key
    ensures var s, first := After(steps + more), After(steps).replies[k];
      Next(s, Begin(c, false)) ==
        Replied(s, c, if s.calls[c].bytes == first.bytes then Accepted(|first.bytes|, true) else Outcome.Conflict)
  {
    hide After, Next;
    AcceptedAlwaysHasRow(steps);
    RowStays(steps, more, After(steps).replies[k].key, After(steps).replies[k].bytes);
    LedgerDecidesAnswer(steps + more, c, false);
  }
}

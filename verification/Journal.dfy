// The durable terminal journal (crates/gobrowse-sandboxd/src/journal.rs). Each method is one SQLite
// transaction; `fault` says that SQLite reported a failure, in which case nothing is committed.
module Journal {
  import opened Basics
  import opened Protocol
  import opened OutputLog

  datatype StoredState = Starting | Running | Terminating | Unrecoverable | Lost | Exited | Terminated

  datatype TerminalRow = TerminalRow(
    workspace: WorkspaceId,
    startFingerprint: nat,
    state: StoredState,
    cols: nat,
    rows: nat,
    exitCode: Option<int>,
    reason: Option<string>,
    log: Log)

  datatype InputStatus = InputPending | Applied(bytes: nat) | Unknown

  // Digests of input bytes are taken to be collision-free, so the bytes stand for their fingerprint.
  datatype InputRow = InputRow(fingerprint: seq<Byte>, status: InputStatus)

  datatype MutationStatus = MutationPending | Completed(response: Response)

  datatype MutationRow = MutationRow(terminal: TerminalId, kind: Kind, fingerprint: Fingerprint, status: MutationStatus)

  type Terminals = map<TerminalId, TerminalRow>
  type Inputs = map<(TerminalId, InputId), InputRow>
  type Mutations = map<RequestId, MutationRow>

  datatype StartDecision = ExecuteStart | Existing
  datatype InputDecision = ExecuteInput | AppliedBefore(bytes: nat)
  datatype MutationDecision = ExecuteMutation | CachedMutation(response: Response)

  datatype OutputRead = OutputRead(start: nat, next: nat, bytes: seq<Byte>, row: TerminalRow)

  predicate Recoverable(state: StoredState) {
    state in {Starting, Running, Terminating, Unrecoverable}
  }

  function Started(t: Terminals, id: TerminalId, workspace: WorkspaceId, fp: nat, cols: nat, rows: nat)
    : (Terminals, Result<StartDecision, JournalError>)
  {
    if id in t then
      if t[id].workspace != workspace || t[id].startFingerprint != fp then (t, Err(JournalError.Conflict))
      else (t, Ok(Existing))
    else if !(1 <= cols <= 65535) || !(1 <= rows <= 65535) then (t, Err(Sqlite))
    else (t[id := TerminalRow(workspace, fp, Starting, cols, rows, None, None, EMPTY_LOG)], Ok(ExecuteStart))
  }

  function RunningSet(t: Terminals, id: TerminalId): Terminals {
    if id in t && t[id].state in {Starting, Running} then t[id := t[id].(state := Running)] else t
  }

  function StateSet(t: Terminals, id: TerminalId, state: StoredState, exitCode: Option<int>,
                    reason: Option<string>, complete: Option<bool>): Terminals
  {
    if id !in t then t
    else
      var log := t[id].log;
      t[id := t[id].(state := state, exitCode := exitCode, reason := reason,
                     log := log.(complete := if complete.Some? then complete.value else log.complete))]
  }

  function InputBegun(t: Terminals, inputs: Inputs, key: (TerminalId, InputId), fp: seq<Byte>)
    : (Inputs, Result<InputDecision, JournalError>)
  {
    if key in inputs then
      if inputs[key].fingerprint != fp then (inputs, Err(JournalError.Conflict))
      else match inputs[key].status
        case Applied(bytes) => (inputs, Ok(AppliedBefore(bytes)))
        case _ => (inputs, Err(JournalError.OutcomeUnknown))
    else if key.0 !in t then (inputs, Err(Sqlite))
    else (inputs[key := InputRow(fp, InputPending)], Ok(ExecuteInput))
  }

  predicate IsPendingInput(inputs: Inputs, key: (TerminalId, InputId)) {
    key in inputs && inputs[key].status.InputPending?
  }

  function InputCompleted(inputs: Inputs, key: (TerminalId, InputId), bytes: nat): (Inputs, Result<(), JournalError>) {
    if bytes >= I64_LIMIT then (inputs, Err(Corrupt))
    else if IsPendingInput(inputs, key) then (inputs[key := inputs[key].(status := Applied(bytes))], Ok(()))
    else (inputs, Err(JournalError.OutcomeUnknown))
  }

  function InputMarkedUnknown(inputs: Inputs, key: (TerminalId, InputId)): Inputs {
    if IsPendingInput(inputs, key) then inputs[key := inputs[key].(status := Unknown)] else inputs
  }

  function MutationBegun(m: Mutations, id: RequestId, op: Operation): (Mutations, Result<MutationDecision, JournalError>) {
    if id in m then
      if m[id].terminal != op.terminal || m[id].kind != op.kind || m[id].fingerprint != op
      then (m, Err(JournalError.Conflict))
      else match m[id].status
        case Completed(response) => (m, Ok(CachedMutation(response)))
        case MutationPending => (m, Err(JournalError.OutcomeUnknown))
    else (m[id := MutationRow(op.terminal, op.kind, op, MutationPending)], Ok(ExecuteMutation))
  }

  function MutationCompleted(m: Mutations, id: RequestId, response: Response): (Mutations, Result<(), JournalError>) {
    if id in m && m[id].status.MutationPending?
    then (m[id := m[id].(status := Completed(response))], Ok(()))
    else (m, Err(JournalError.OutcomeUnknown))
  }

  function LostRow(row: TerminalRow): TerminalRow {
    row.(state := Lost, reason := Some("daemon_restart_pty_lost"), log := row.log.(complete := false))
  }

  function TerminalsAfterRestart(t: Terminals): Terminals {
    map id | id in t :: if Recoverable(t[id].state) then LostRow(t[id]) else t[id]
  }

  function LostOnRestart(t: Terminals): set<TerminalId> { set id | id in t && Recoverable(t[id].state) }

  function InputsAfterRestart(inputs: Inputs): Inputs {
    map key | key in inputs :: if inputs[key].status.InputPending? then inputs[key].(status := Unknown) else inputs[key]
  }

  function Prefixed(prefix: seq<Byte>, rest: Result<seq<Byte>, JournalError>): Result<seq<Byte>, JournalError> {
    match rest
    case Ok(bytes) => Ok(prefix + bytes)
    case Err(e) => Err(e)
  }

  method InsertChunks(existing: seq<Chunk>, from: nat, bytes: seq<Byte>) returns (chunks: seq<Chunk>, cursor: nat)
    ensures chunks == existing + Pieces(from, bytes) && cursor == from + |bytes|
  {
    chunks, cursor := existing, from;
    var rest := bytes;
    assert bytes[0..] == bytes;
    while rest != []
      invariant cursor + |rest| == from + |bytes|
      invariant chunks + Pieces(cursor, rest) == existing + Pieces(from, bytes)
      decreases |rest|
    {
      var length := Min(|rest|, MAX_TERMINAL_OUTPUT_CHUNK_BYTES);
      var chunk := Chunk(cursor, cursor + length, rest[..length]);
      JoinChunks(chunks, [chunk], Pieces(cursor + length, rest[length..]));
      chunks, cursor, rest := chunks + [chunk], cursor + length, rest[length..];
    }
  }

  lemma {:induction false} JoinChunks(a: seq<Chunk>, b: seq<Chunk>, c: seq<Chunk>)
    ensures a + (b + c) == a + b + c
  {
  }

  method CollectRows(rows: seq<Chunk>, start: nat, room: nat) returns (r: Result<seq<Byte>, JournalError>)
    ensures r == Gather(rows, start, room)
  {
    var rest, bytes, next := rows, [], start;
    PrefixedJoin([], [], Gather(rows, start, room));
    while |bytes| < room && rest != []
      invariant |bytes| <= room && next == start + |bytes|
      invariant Collected(rows, start, room, bytes, rest)
      decreases |rest|
    {
      CollectOne(rows, start, room, bytes, rest);
      if Damaged(rest[0]) {
        return Err(Corrupt);
      }
      var part := Slice(rest[0], next, room - |bytes|);
      bytes, next, rest := bytes + part, next + |part|, rest[1..];
    }
    assert bytes + [] == bytes;
    r := Ok(bytes);
  }

  // `bytes` is what the rows before `rest` contribute.
  ghost predicate Collected(rows: seq<Chunk>, start: nat, room: nat, bytes: seq<Byte>, rest: seq<Chunk>)
    requires |bytes| <= room
  {
    Gather(rows, start, room) == Prefixed(bytes, Gather(rest, start + |bytes|, room - |bytes|))
  }

  lemma {:induction false} CollectOne(rows: seq<Chunk>, start: nat, room: nat, bytes: seq<Byte>, rest: seq<Chunk>)
    requires |bytes| < room && rest != [] && Collected(rows, start, room, bytes, rest)
    ensures if Damaged(rest[0]) then Gather(rows, start, room) == Err(Corrupt)
            else var part := Slice(rest[0], start + |bytes|, room - |bytes|);
              Collected(rows, start, room, bytes + part, rest[1..])
  {
    hide Gather, Slice;
    var next, left := start + |bytes|, room - |bytes|;
    GatherOne(rest, next, left);
    if !Damaged(rest[0]) {
      var part := Slice(rest[0], next, left);
      assert |bytes + part| == |bytes| + |part|;
      PrefixedJoin(bytes, part, Gather(rest[1..], start + |bytes + part|, room - |bytes + part|));
    }
  }

  lemma {:induction false} GatherOne(rows: seq<Chunk>, next: nat, room: nat)
    requires rows != [] && room > 0
    ensures Gather(rows, next, room) ==
      if Damaged(rows[0]) then Err(Corrupt)
      else var part := Slice(rows[0], next, room);
        Prefixed(part, Gather(rows[1..], next + |part|, room - |part|))
  {
  }

  lemma {:induction false} PrefixedJoin(a: seq<Byte>, b: seq<Byte>, r: Result<seq<Byte>, JournalError>)
    ensures Prefixed(a, Prefixed(b, r)) == Prefixed(a + b, r)
    ensures Prefixed([], r) == r
  {
    if r.Ok? {
      assert a + (b + r.value) == a + b + r.value && [] + r.value == r.value;
    }
  }

  class TerminalJournal {
    var terminals: Terminals
    var inputs: Inputs
    var mutations: Mutations

    constructor ()
      ensures terminals == map[] && inputs == map[] && mutations == map[]
    {
      terminals, inputs, mutations := map[], map[], map[];
    }

    method BeginStart(id: TerminalId, workspace: WorkspaceId, fp: nat, cols: nat, rows: nat, fault: bool)
      returns (r: Result<StartDecision, JournalError>)
      modifies this`terminals
      ensures (terminals, r) == if fault then (old(terminals), Err(Sqlite))
                                else Started(old(terminals), id, workspace, fp, cols, rows)
    {
      if fault {
        return Err(Sqlite);
      }
      if id in terminals {
        if terminals[id].workspace != workspace || terminals[id].startFingerprint != fp {
          return Err(JournalError.Conflict);
        }
        return Ok(Existing);
      }
      if cols < 1 || cols > 65535 || rows < 1 || rows > 65535 {
        return Err(Sqlite);
      }
      terminals := terminals[id := TerminalRow(workspace, fp, Starting, cols, rows, None, None, EMPTY_LOG)];
      r := Ok(ExecuteStart);
    }

    method SetRunning(id: TerminalId, fault: bool) returns (r: Result<(), JournalError>)
      modifies this`terminals
      ensures terminals == if fault then old(terminals) else RunningSet(old(terminals), id)
      ensures r == if fault then Err(Sqlite) else if id in terminals then Ok(()) else Err(NotFound)
    {
      if fault {
        return Err(Sqlite);
      }
      if id in terminals && (terminals[id].state == Starting || terminals[id].state == Running) {
        terminals := terminals[id := terminals[id].(state := Running)];
      } else if id !in terminals {
        return Err(NotFound);
      }
      r := Ok(());
    }

    method SetState(id: TerminalId, state: StoredState, exitCode: Option<int>, reason: Option<string>,
                    complete: Option<bool>, fault: bool) returns (r: Result<(), JournalError>)
      modifies this`terminals
      ensures terminals == if fault then old(terminals)
                           else StateSet(old(terminals), id, state, exitCode, reason, complete)
      ensures r == if fault then Err(Sqlite) else if id in terminals then Ok(()) else Err(NotFound)
    {
      if fault {
        return Err(Sqlite);
      }
      if id !in terminals {
        return Err(NotFound);
      }
      var row := terminals[id];
      if complete.Some? {
        row := row.(log := row.log.(complete := complete.value));
      }
      terminals := terminals[id := row.(state := state, exitCode := exitCode, reason := reason)];
      r := Ok(());
    }

    method AppendOutput(id: TerminalId, bytes: seq<Byte>, fault: bool) returns (r: Result<nat, JournalError>)
      modifies this`terminals
      ensures fault || id !in old(terminals) ==> r == Err(Sqlite) && terminals == old(terminals)
      ensures !fault && id in old(terminals) ==>
        var (log, accepted) := Append(old(terminals)[id].log, bytes);
        r == Ok(accepted) && terminals == old(terminals)[id := old(terminals)[id].(log := log)]
    {
      if fault || id !in terminals {
        return Err(Sqlite);
      }
      var row := terminals[id];
      var log := row.log;
      if !log.complete || log.bytes >= MAX_TERMINAL_OUTPUT_BYTES {
        terminals := terminals[id := row.(log := log.(complete := false))];
        return Ok(0);
      }
      var available := MAX_TERMINAL_OUTPUT_BYTES - log.bytes;
      var accepted := Min(|bytes|, available);
      var chunks, cursor := InsertChunks(log.chunks, log.end, bytes[..accepted]);
      var overflowed := accepted != |bytes|;
      log := Log(chunks, log.start, cursor, log.ack, log.bytes + accepted, if overflowed then false else log.complete);
      terminals := terminals[id := row.(log := log)];
      r := Ok(accepted);
    }

    method ReadOutput(id: TerminalId, after: nat, room: nat, fault: bool) returns (r: Result<OutputRead, JournalError>)
      ensures r == if fault then Err(Sqlite)
        else if id !in terminals then Err(NotFound)
        else match Read(terminals[id].log, after, room)
          case Err(e) => Err(e)
          case Ok(done) => Ok(OutputRead(done.0, done.0 + |done.1|, done.1, terminals[id]))
    {
      if fault {
        return Err(Sqlite);
      }
      if id !in terminals {
        return Err(NotFound);
      }
      var log := terminals[id].log;
      if after > log.end {
        return Err(JournalError.Conflict);
      }
      var start := Max(after, log.start);
      var collected := CollectRows(Above(log.chunks, start), start, room);
      match collected
      case Err(e) => r := Err(e);
      case Ok(bytes) => r := Ok(OutputRead(start, start + |bytes|, bytes, terminals[id]));
    }

    method AckOutput(id: TerminalId, cursor: nat, fault: bool) returns (r: Result<nat, JournalError>)
      modifies this`terminals
      ensures fault || id !in old(terminals) ==> r == Err(Sqlite) && terminals == old(terminals)
      ensures !fault && id in old(terminals) ==>
        match Ack(old(terminals)[id].log, cursor)
        case Err(e) => r == Err(e) && terminals == old(terminals)
        case Ok(done) => r == Ok(done.1) && terminals == old(terminals)[id := old(terminals)[id].(log := done.0)]
    {
      if fault || id !in terminals {
        return Err(Sqlite);
      }
      var row := terminals[id];
      if cursor >= I64_LIMIT {
        return Err(Corrupt);
      }
      if cursor > row.log.end {
        return Err(JournalError.Conflict);
      }
      var ack := Max(cursor, row.log.ack);
      var log := row.log.(chunks := Above(row.log.chunks, ack), ack := ack, start := Max(row.log.start, ack));
      terminals := terminals[id := row.(log := log)];
      r := Ok(ack);
    }

    method BeginInput(key: (TerminalId, InputId), fp: seq<Byte>, fault: bool)
      returns (r: Result<InputDecision, JournalError>)
      modifies this`inputs
      ensures (inputs, r) == if fault then (old(inputs), Err(Sqlite))
                             else InputBegun(terminals, old(inputs), key, fp)
    {
      if fault {
        return Err(Sqlite);
      }
      if key in inputs {
        if inputs[key].fingerprint != fp {
          return Err(JournalError.Conflict);
        }
        match inputs[key].status
        case Applied(bytes) => return Ok(AppliedBefore(bytes));
        case _ => return Err(JournalError.OutcomeUnknown);
      }
      if key.0 !in terminals {
        return Err(Sqlite);
      }
      inputs := inputs[key := InputRow(fp, InputPending)];
      r := Ok(ExecuteInput);
    }

    method CompleteInput(key: (TerminalId, InputId), bytes: nat, fault: bool) returns (r: Result<(), JournalError>)
      modifies this`inputs
      ensures (inputs, r) == if fault then (old(inputs), Err(Sqlite)) else InputCompleted(old(inputs), key, bytes)
    {
      if fault {
        return Err(Sqlite);
      }
      if bytes >= I64_LIMIT {
        return Err(Corrupt);
      }
      if !IsPendingInput(inputs, key) {
        return Err(JournalError.OutcomeUnknown);
      }
      inputs := inputs[key := inputs[key].(status := Applied(bytes))];
      r := Ok(());
    }

    method MarkInputUnknown(key: (TerminalId, InputId), fault: bool) returns (r: Result<(), JournalError>)
      modifies this`inputs
      ensures inputs == if fault then old(inputs) else InputMarkedUnknown(old(inputs), key)
      ensures r == if fault then Err(Sqlite) else Ok(())
    {
      if fault {
        return Err(Sqlite);
      }
      if IsPendingInput(inputs, key) {
        inputs := inputs[key := inputs[key].(status := Unknown)];
      }
      r := Ok(());
    }

    method BeginMutation(id: RequestId, op: Operation, fault: bool) returns (r: Result<MutationDecision, JournalError>)
      modifies this`mutations
      ensures (mutations, r) == if fault then (old(mutations), Err(Sqlite)) else MutationBegun(old(mutations), id, op)
    {
      if fault {
        return Err(Sqlite);
      }
      if id in mutations {
        var row := mutations[id];
        if row.terminal != op.terminal || row.kind != op.kind || row.fingerprint != op {
          return Err(JournalError.Conflict);
        }
        match row.status
        case Completed(response) => return Ok(CachedMutation(response));
        case MutationPending => return Err(JournalError.OutcomeUnknown);
      }
      mutations := mutations[id := MutationRow(op.terminal, op.kind, op, MutationPending)];
      r := Ok(ExecuteMutation);
    }

    method CompleteMutation(id: RequestId, response: Response, fault: bool) returns (r: Result<(), JournalError>)
      modifies this`mutations
      ensures (mutations, r) == if fault then (old(mutations), Err(Sqlite))
                                else MutationCompleted(old(mutations), id, response)
    {
      if fault {
        return Err(Sqlite);
      }
      if id !in mutations || !mutations[id].status.MutationPending? {
        return Err(JournalError.OutcomeUnknown);
      }
      mutations := mutations[id := mutations[id].(status := Completed(response))];
      r := Ok(());
    }

    /** After a restart no terminal is recoverable and no input pending: the recoverable terminals, which are the
        answer, are lost with an incomplete log, the pending inputs are unknown, and nothing else is different. */
    method ReconcileRestart(fault: bool) returns (r: Result<set<TerminalId>, JournalError>)
      modifies this`terminals, this`inputs
      ensures fault ==> r == Err(Sqlite) && terminals == old(terminals) && inputs == old(inputs)
      ensures !fault ==> r.Ok?
      ensures !fault ==> forall id :: id in r.value <==> id in old(terminals) && Recoverable(old(terminals)[id].state)
      ensures !fault ==> terminals == TerminalsAfterRestart(old(terminals)) && inputs == InputsAfterRestart(old(inputs))
      ensures !fault ==> forall id :: id in terminals ==>
        var was := old(terminals)[id];
        && (id !in r.value <==> was.state.Lost? || was.state.Exited? || was.state.Terminated?)
        && terminals[id] == if id !in r.value then was else
             was.(state := Lost, reason := Some("daemon_restart_pty_lost"), log := was.log.(complete := false))
      ensures !fault ==> forall key :: key in inputs ==>
        && !inputs[key].status.InputPending?
        && inputs[key].fingerprint == old(inputs)[key].fingerprint
        && inputs[key].status ==
          if old(inputs)[key].status.InputPending? then Unknown else old(inputs)[key].status
    {
      if fault {
        return Err(Sqlite);
      }
      var lost := SelectRecoverable(terminals);
      r := Ok(lost);
      terminals := MarkLost(terminals, lost);
      inputs := MarkPendingUnknown(inputs);
    }
  }

  // The first statement of the restart: the recoverable terminals.
  method SelectRecoverable(t: Terminals) returns (lost: set<TerminalId>)
    ensures lost == LostOnRestart(t)
  {
    lost := {};
    var left := t.Keys;
    while left != {}
      invariant left <= t.Keys
      invariant lost == set id | id in t.Keys - left && Recoverable(t[id].state)
      decreases |left|
    {
      var id :| id in left;
      if Recoverable(t[id].state) {
        lost := lost + {id};
      }
      left := left - {id};
    }
  }

  // The second: each of them is lost.
  method MarkLost(t: Terminals, lost: set<TerminalId>) returns (after: Terminals)
    requires lost <= t.Keys
    ensures after.Keys == t.Keys
    ensures forall id :: id in t ==> after[id] == if id in lost then LostRow(t[id]) else t[id]
  {
    after := t;
    var left := lost;
    while left != {}
      invariant left <= lost && after.Keys == t.Keys
      invariant forall id :: id in t ==> after[id] == if id in lost - left then LostRow(t[id]) else t[id]
      decreases |left|
    {
      var id :| id in left;
      after := after[id := LostRow(after[id])];
      left := left - {id};
    }
  }

  // The third: each pending input becomes unknown.
  method MarkPendingUnknown(inputs: Inputs) returns (after: Inputs)
    ensures after == InputsAfterRestart(inputs)
  {
    after := inputs;
    var left := inputs.Keys;
    while left != {}
      invariant left <= inputs.Keys && after.Keys == inputs.Keys
      invariant forall key :: key in inputs ==>
        after[key] == if key in left || !inputs[key].status.InputPending? then inputs[key] else inputs[key].(status := Unknown)
      decreases |left|
    {
      var key :| key in left;
      if after[key].status.InputPending? {
        after := after[key := after[key].(status := Unknown)];
      }
      left := left - {key};
    }
  }

  // ---------------------------------------------------------------------------------------------
  // Histories of the terminals table.

  datatype TerminalCall =
    | Begin(id: TerminalId, workspace: WorkspaceId, fp: nat, cols: nat, rows: nat)
    | MarkRunning(id: TerminalId)
    | MarkState(id: TerminalId, state: StoredState, exitCode: Option<int>, reason: Option<string>, complete: Option<bool>)
    | Output(id: TerminalId, bytes: seq<Byte>)
    | Acknowledge(id: TerminalId, cursor: nat)
    | Reopen

  function Called(t: Terminals, call: TerminalCall): Terminals {
    match call
    case Begin(id, workspace, fp, cols, rows) => Started(t, id, workspace, fp, cols, rows).0
    case MarkRunning(id) => RunningSet(t, id)
    case MarkState(id, state, exitCode, reason, complete) => StateSet(t, id, state, exitCode, reason, complete)
    case Output(id, bytes) => if id in t then t[id := t[id].(log := Append(t[id].log, bytes).0)] else t
    case Acknowledge(id, cursor) =>
      if id in t && Ack(t[id].log, cursor).Ok? then t[id := t[id].(log := Ack(t[id].log, cursor).value.0)] else t
    case Reopen => TerminalsAfterRestart(t)
  }

  function TerminalsAfter(calls: seq<TerminalCall>): Terminals {
    if calls == [] then map[] else Called(TerminalsAfter(calls[..|calls| - 1]), calls[|calls| - 1])
  }

  // How often a start of this terminal was granted.
  function Grants(calls: seq<TerminalCall>, id: TerminalId): nat {
    if calls == [] then 0
    else
      var past, call := calls[..|calls| - 1], calls[|calls| - 1];
      Grants(past, id) +
      if call.Begin? && call.id == id
        && Started(TerminalsAfter(past), id, call.workspace, call.fp, call.cols, call.rows).1 == Ok(ExecuteStart)
      then 1 else 0
  }

  /** Each terminal id is granted at most once, over all restarts, and has a record exactly when it was granted. */
  lemma {:induction false} StartedAtMostOnce(calls: seq<TerminalCall>, id: TerminalId)
    ensures Grants(calls, id) == if id in TerminalsAfter(calls) then 1 else 0
  {
    hide Append, Ack;
    if calls != [] {
      StartedAtMostOnce(calls[..|calls| - 1], id);
    }
  }

  // The first start of this terminal that names a size a terminal can have: workspace, fingerprint and size.
  datatype FirstStart = FirstStart(workspace: WorkspaceId, fp: nat, cols: nat, rows: nat)

  function FirstStartOf(calls: seq<TerminalCall>, id: TerminalId): Option<FirstStart> {
    if calls == [] then None
    else
      var first, call := FirstStartOf(calls[..|calls| - 1], id), calls[|calls| - 1];
      if first.None? && call.Begin? && call.id == id && 0 < call.cols < 65536 && 0 < call.rows < 65536
      then Some(FirstStart(call.workspace, call.fp, call.cols, call.rows)) else first
  }

  lemma {:induction false} RowIsTheFirstStart(calls: seq<TerminalCall>, id: TerminalId)
    ensures id in TerminalsAfter(calls) <==> FirstStartOf(calls, id).Some?
    ensures id in TerminalsAfter(calls) ==>
      var row := TerminalsAfter(calls)[id];
      FirstStartOf(calls, id) == Some(FirstStart(row.workspace, row.startFingerprint, row.cols, row.rows))
  {
    hide Append, Ack;
    if calls != [] {
      RowIsTheFirstStart(calls[..|calls| - 1], id);
    }
  }

  /** After any calls and restarts a start is granted exactly when it is the first with a possible size; from then on
      the same start, by workspace and fingerprint, is recognised, and exactly any other one conflicts. */
  lemma {:induction false} StartAnswersAreExact(
      calls: seq<TerminalCall>, id: TerminalId, workspace: WorkspaceId, fp: nat, cols: nat, rows: nat)
    ensures var first := FirstStartOf(calls, id);
      var possible := 0 < cols < 65536 && 0 < rows < 65536;
      var r := Started(TerminalsAfter(calls), id, workspace, fp, cols, rows).1;
      && (r == Ok(ExecuteStart) <==> first.None? && possible)
      && (r == Err(Sqlite) <==> first.None? && !possible)
      && (r == Ok(Existing) <==> first.Some? && first.value.workspace == workspace && first.value.fp == fp)
      && (r == Err(JournalError.Conflict) <==> first.Some? && (first.value.workspace != workspace || first.value.fp != fp))
  {
    RowIsTheFirstStart(calls, id);
  }

  // Starting or running, as the record says.
  predicate SaysAlive(t: Terminals, id: TerminalId) { id in t && t[id].state in {Starting, Running} }

  /** Once a record reads neither STARTING nor RUNNING, no calls but an explicit set_state make it read so again. */
  lemma {:induction false} OnlySetStateRestoresRunning(calls: seq<TerminalCall>, more: seq<TerminalCall>, id: TerminalId)
    requires id in TerminalsAfter(calls) && !SaysAlive(TerminalsAfter(calls), id)
    requires forall i :: 0 <= i < |more| && more[i].MarkState? ==> more[i].id != id
    ensures id in TerminalsAfter(calls + more) && !SaysAlive(TerminalsAfter(calls + more), id)
  {
    hide Append, Ack;
    if more == [] {
      assert calls + more == calls;
    } else {
      var past := more[..|more| - 1];
      OnlySetStateRestoresRunning(calls, past, id);
      assert (calls + more)[..|calls + more| - 1] == calls + past;
    }
  }

  // What one call means for the output log of one terminal, in the terms of its history.
  function Projected(t: Terminals, call: TerminalCall, id: TerminalId): seq<Call> {
    if id !in t then []
    else match call
      case Output(other, bytes) => if other == id then [Offer(bytes)] else []
      case Acknowledge(other, cursor) => if other == id then [AckTo(cursor)] else []
      case MarkState(other, _, _, _, complete) => if other == id && complete == Some(false) then [MarkIncomplete] else []
      case Reopen => if Recoverable(t[id].state) then [MarkIncomplete] else []
      case _ => []
  }

  function OutputCalls(calls: seq<TerminalCall>, id: TerminalId): seq<Call> {
    if calls == [] then []
    else
      var past := calls[..|calls| - 1];
      OutputCalls(past, id) + Projected(TerminalsAfter(past), calls[|calls| - 1], id)
  }

  lemma {:induction false} CallMovesLog(t: Terminals, call: TerminalCall, id: TerminalId, h: History)
    requires id in t && t[id].log == h.log
    requires call.MarkState? ==> call.complete != Some(true)
    ensures id in Called(t, call)
    ensures Projected(t, call, id) == [] ==> Called(t, call)[id].log == h.log
    ensures Projected(t, call, id) != [] ==>
      |Projected(t, call, id)| == 1 && Called(t, call)[id].log == Step(h, Projected(t, call, id)[0]).log
  {
    hide Append, Ack;
  }

  lemma {:induction false} NewLogIsEmpty(t: Terminals, call: TerminalCall, id: TerminalId)
    requires id !in t && id in Called(t, call)
    ensures Called(t, call)[id].log == EMPTY_LOG
  {
    hide Append, Ack;
  }

  // No call says that an incomplete log is complete: the runtime never does.
  ghost predicate NeverCompletes(calls: seq<TerminalCall>) {
    forall i :: 0 <= i < |calls| && calls[i].MarkState? ==> calls[i].complete != Some(true)
  }

  lemma {:induction false} NoOutputBeforeStart(calls: seq<TerminalCall>, id: TerminalId)
    requires id !in TerminalsAfter(calls)
    ensures OutputCalls(calls, id) == []
  {
    hide Append, Ack;
    if calls != [] {
      NoOutputBeforeStart(calls[..|calls| - 1], id);
    }
  }

  lemma {:induction false} LogFollowsHistory(calls: seq<TerminalCall>, id: TerminalId)
    requires NeverCompletes(calls) && id in TerminalsAfter(calls)
    ensures TerminalsAfter(calls)[id].log == After(OutputCalls(calls, id)).log
  {
    hide Called, Projected;
    var past, call := calls[..|calls| - 1], calls[|calls| - 1];
    var t, before := TerminalsAfter(past), OutputCalls(past, id);
    if id in t {
      LogFollowsHistory(past, id);
      CallMovesLog(t, call, id, After(before));
      if Projected(t, call, id) == [] {
        assert before + [] == before;
      } else {
        assert Projected(t, call, id) == [Projected(t, call, id)[0]];
        AfterOneMore(before, Projected(t, call, id)[0]);
      }
    } else {
      NewLogIsEmpty(t, call, id);
      NoOutputBeforeStart(past, id);
      assert OutputCalls(calls, id) == [] by { NothingProjected(t, call, id); }
    }
  }

  lemma {:induction false} NothingProjected(t: Terminals, call: TerminalCall, id: TerminalId)
    requires id !in t
    ensures Projected(t, call, id) == []
  {
  }

  /** In every history of the journal the log of every terminal is faithful to what was offered to it. */
  lemma {:induction false} EveryLogIsFaithful(calls: seq<TerminalCall>, id: TerminalId)
    requires NeverCompletes(calls) && id in TerminalsAfter(calls)
    ensures var h := After(OutputCalls(calls, id));
      TerminalsAfter(calls)[id].log == h.log && Faithful(h)
  {
    LogFollowsHistory(calls, id);
    EveryHistoryIsFaithful(OutputCalls(calls, id));
  }

  // ---------------------------------------------------------------------------------------------
  // Histories of the two ledgers. What happened to one input, or to one request, without the others.

  datatype InputCall =
    | Ask(key: (TerminalId, InputId), bytes: seq<Byte>)
    | Apply(key: (TerminalId, InputId), count: nat)
    | GiveUp(key: (TerminalId, InputId))
    | ReopenInputs

  function InputCalled(t: Terminals, inputs: Inputs, call: InputCall): Inputs {
    match call
    case Ask(key, bytes) => InputBegun(t, inputs, key, bytes).0
    case Apply(key, count) => InputCompleted(inputs, key, count).0
    case GiveUp(key) => InputMarkedUnknown(inputs, key)
    case ReopenInputs => InputsAfterRestart(inputs)
  }

  function InputsAfter(t: Terminals, calls: seq<InputCall>): Inputs {
    if calls == [] then map[] else InputCalled(t, InputsAfter(t, calls[..|calls| - 1]), calls[|calls| - 1])
  }

  // The bytes first asked for, and the count if an application was the first thing to end it.
  datatype InputStory = NeverAsked | InDoubt(bytes: seq<Byte>, ended: bool) | Written(bytes: seq<Byte>, count: nat)

  function StoryOfInput(calls: seq<InputCall>, key: (TerminalId, InputId)): InputStory {
    if calls == [] then NeverAsked
    else
      var story, call := StoryOfInput(calls[..|calls| - 1], key), calls[|calls| - 1];
      if story.NeverAsked? then
        if call.Ask? && call.key == key then InDoubt(call.bytes, false) else NeverAsked
      else if story.InDoubt? && !story.ended then
        match call
        case Apply(other, count) => if other == key && count < I64_LIMIT then Written(story.bytes, count) else story
        case GiveUp(other) => if other == key then InDoubt(story.bytes, true) else story
        case ReopenInputs => InDoubt(story.bytes, true)
        case Ask(_, _) => story
      else story
  }

  lemma {:induction false} RowTellsTheInput(t: Terminals, calls: seq<InputCall>, key: (TerminalId, InputId))
    requires key.0 in t
    ensures var inputs, story := InputsAfter(t, calls), StoryOfInput(calls, key);
      && (key in inputs <==> !story.NeverAsked?)
      && (story.InDoubt? ==> inputs[key] == InputRow(story.bytes, if story.ended then Unknown else InputPending))
      && (story.Written? ==> inputs[key] == InputRow(story.bytes, Applied(story.count)))
  {
    if calls != [] {
      RowTellsTheInput(t, calls[..|calls| - 1], key);
    }
  }

  /** After any calls and restarts an input is granted exactly when it was never asked for; then the same bytes are
      answered with the count of their application, or an unknown outcome, and exactly other bytes conflict. */
  lemma {:induction false} InputAnswersAreExact(t: Terminals, calls: seq<InputCall>, key: (TerminalId, InputId), bytes: seq<Byte>)
    requires key.0 in t
    ensures InputBegun(t, InputsAfter(t, calls), key, bytes).1 ==
      match StoryOfInput(calls, key)
      case NeverAsked => Ok(ExecuteInput)
      case InDoubt(asked, _) => Err(if asked == bytes then JournalError.OutcomeUnknown else JournalError.Conflict)
      case Written(asked, count) => if asked == bytes then Ok(AppliedBefore(count)) else Err(JournalError.Conflict)
  {
    RowTellsTheInput(t, calls, key);
  }

  /** An input for a terminal without a record is refused and leaves no row. */
  lemma {:induction false} InputNeedsTerminal(t: Terminals, calls: seq<InputCall>, key: (TerminalId, InputId), bytes: seq<Byte>)
    requires key.0 !in t
    ensures key !in InputsAfter(t, calls) && InputBegun(t, InputsAfter(t, calls), key, bytes).1 == Err(Sqlite)
  {
    if calls != [] {
      InputNeedsTerminal(t, calls[..|calls| - 1], key, bytes);
    }
  }

  datatype MutationCall = Request(id: RequestId, op: Operation) | Answer(id: RequestId, response: Response)

  function MutationsAfter(calls: seq<MutationCall>): Mutations {
    if calls == [] then map[]
    else
      var past, call := MutationsAfter(calls[..|calls| - 1]), calls[|calls| - 1];
      match call
      case Request(id, op) => MutationBegun(past, id, op).0
      case Answer(id, response) => MutationCompleted(past, id, response).0
  }

  // The operation first asked for under an id, and the first response after that.
  datatype RequestStory = Unasked | Unanswered(op: Operation) | Answered(op: Operation, response: Response)

  function StoryOfRequest(calls: seq<MutationCall>, id: RequestId): RequestStory {
    if calls == [] then Unasked
    else
      var story, call := StoryOfRequest(calls[..|calls| - 1], id), calls[|calls| - 1];
      if call.id != id then story
      else if story.Unasked? && call.Request? then Unanswered(call.op)
      else if story.Unanswered? && call.Answer? then Answered(story.op, call.response)
      else story
  }

  lemma {:induction false} RowTellsTheRequest(calls: seq<MutationCall>, id: RequestId)
    ensures var m, story := MutationsAfter(calls), StoryOfRequest(calls, id);
      && (id in m <==> !story.Unasked?)
      && (story.Unanswered? ==> m[id] == MutationRow(story.op.terminal, story.op.kind, story.op, MutationPending))
      && (story.Answered? ==> m[id] == MutationRow(story.op.terminal, story.op.kind, story.op, Completed(story.response)))
  {
    if calls != [] {
      RowTellsTheRequest(calls[..|calls| - 1], id);
    }
  }

  /** After any calls a request is granted exactly when its id is new; then the same operation is answered with the
      first response stored for it, or an unknown outcome, and exactly another operation conflicts. */
  lemma {:induction false} MutationAnswersAreExact(calls: seq<MutationCall>, id: RequestId, op: Operation)
    ensures MutationBegun(MutationsAfter(calls), id, op).1 ==
      match StoryOfRequest(calls, id)
      case Unasked => Ok(ExecuteMutation)
      case Unanswered(asked) => Err(if asked == op then JournalError.OutcomeUnknown else JournalError.Conflict)
      case Answered(asked, response) => if asked == op then Ok(CachedMutation(response)) else Err(JournalError.Conflict)
  {
    RowTellsTheRequest(calls, id);
  }
}

// The streaming parser of model provider responses (crates/gobrowse-server/src/chat.rs):
// `next_provider_event` over a buffer of bytes, a queue of pending events and accumulated event data.
// UTF-8 and JSON decoding are parameters of the model.
module ProviderStream {
  import opened Basics

  const LIMIT: nat := 4 * 1024 * 1024
  const NEWLINE: Byte := 10

  datatype Event =
    | TextDelta(text: string)
    | ToolCall(id: string, name: string, input: string)
    | Usage(inputTokens: nat, outputTokens: nat, cachedTokens: nat)
    | Completed

  datatype Error = InvalidResponse | Transport(code: nat)

  type Output = Result<Event, Error>

  // What the code reads out of one JSON payload. `calls` are `ToolCall` events and `usage` a `Usage` event.
  datatype Payload = Payload(text: string, usage: Option<Counts>, calls: seq<Call>, finished: bool)

  datatype Counts = Counts(inputTokens: nat, outputTokens: nat, cachedTokens: nat)

  datatype Call = Call(id: string, name: string, input: string)

  // The provider dialect and the two library decoders: bytes to text, and text to payload. No bytes are
  // the empty text.
  datatype Decoders = Decoders(ollama: bool, text: seq<Byte> -> Option<string>, json: string -> Option<Payload>)

  type Decoder = d: Decoders | d.text([]) == Some("") witness Decoders(true, (b: seq<Byte>) => Some(""), (s: string) => None)

  predicate IsSpace(c: char) {
    || '\t' <= c <= '\r' || c == ' ' || c == '\U{85}' || c == '\U{A0}' || c == '\U{1680}'
    || '\U{2000}' <= c <= '\U{200A}' || c == '\U{2028}' || c == '\U{2029}' || c == '\U{202F}'
    || c == '\U{205F}' || c == '\U{3000}'
  }

  function TrimStart(s: string): string { if s != "" && IsSpace(s[0]) then TrimStart(s[1..]) else s }

  function TrimEnd(s: string): string { if s != "" && IsSpace(s[|s| - 1]) then TrimEnd(s[..|s| - 1]) else s }

  datatype Parsed = Parsed(sse: string, pending: seq<Event>, completed: bool, result: Result<Option<Event>, Error>)

  function CallEvents(calls: seq<Call>): seq<Event> {
    if calls == [] then [] else [ToolCall(calls[0].id, calls[0].name, calls[0].input)] + CallEvents(calls[1..])
  }

  function UsageEvents(usage: Option<Counts>): seq<Event> {
    match usage
    case Some(counts) => [Usage(counts.inputTokens, counts.outputTokens, counts.cachedTokens)]
    case None => []
  }

  function TextEvent(text: string): Option<Event> { if text == "" then None else Some(TextDelta(text)) }

  // One complete payload: the events queued, and the one returned at once.
  function Dispatch(d: Decoder, sse: string, payload: string): Parsed {
    match d.json(payload)
    case None => Parsed(sse, [], false, Err(InvalidResponse))
    case Some(value) =>
      if d.ollama then
        var counts := if value.usage.Some? then value.usage.value else Counts(0, 0, 0);
        var queued := if value.finished then [Usage(counts.inputTokens, counts.outputTokens, 0), Completed] else [];
        Parsed(sse, queued, value.finished, Ok(TextEvent(value.text)))
      else
        var queued := UsageEvents(value.usage) + CallEvents(value.calls) + if value.finished then [Completed] else [];
        Parsed(sse, queued, value.finished, Ok(TextEvent(value.text)))
  }

  // parse_provider_line, called with no event pending.
  function Parse(d: Decoder, sse: string, line: seq<Byte>): Parsed {
    match d.text(line)
    case None => Parsed(sse, [], false, Err(InvalidResponse))
    case Some(raw) =>
      var text := TrimEnd(TrimStart(raw));
      if d.ollama then
        if text == "" then Parsed(sse, [], false, Ok(None)) else Dispatch(d, sse, text)
      else if "data:" <= text then
        Parsed((if sse == "" then "" else sse + "\n") + TrimStart(text[5..]), [], false, Ok(None))
      else if text != "" || sse == "" then Parsed(sse, [], false, Ok(None))
      else if sse == "[DONE]" then Parsed("", [], true, Ok(Some(Completed)))
      else Dispatch(d, "", sse)
  }

  datatype Item = Chunk(bytes: seq<Byte>) | Fail(code: nat)

  datatype Machine = Machine(
    items: seq<Item>,        // what the network still has to deliver
    buffer: seq<Byte>,
    pending: seq<Event>,
    sse: string,
    received: nat,
    completed: bool)

  // Position of the first newline, or the length when there is none.
  function NewlineAt(bytes: seq<Byte>): (p: nat)
    ensures p <= |bytes|
    ensures p < |bytes| ==> bytes[p] == NEWLINE
    ensures NEWLINE !in bytes[..p]
  {
    if bytes == [] || bytes[0] == NEWLINE then 0 else 1 + NewlineAt(bytes[1..])
  }

  // One turn of the loop in next_provider_event.
  datatype Turn = Emit(output: Output, next: Machine) | Again(next: Machine) | Stop

  function AfterLine(m: Machine, parsed: Parsed): Turn {
    var m' := m.(sse := parsed.sse, pending := parsed.pending, completed := parsed.completed);
    match parsed.result
    case Ok(Some(event)) => Emit(Ok(event), m')
    case Ok(None) => Again(m')
    case Err(error) => Emit(Err(error), m'.(completed := true))
  }

  // The last, unterminated line, or the last, undispatched event.
  function AfterFlush(m: Machine, parsed: Parsed): Turn {
    var m' := m.(sse := parsed.sse, pending := parsed.pending, completed := parsed.completed);
    match parsed.result
    case Ok(Some(event)) => Emit(Ok(event), m')
    case Ok(None) => if parsed.completed then Again(m') else Emit(Err(InvalidResponse), m'.(completed := true))
    case Err(_) => Emit(Err(InvalidResponse), m'.(completed := true))
  }

  function TakeTurn(d: Decoder, m: Machine): Turn {
    if m.pending != [] then Emit(Ok(m.pending[0]), m.(pending := m.pending[1..]))
    else if m.completed then Stop
    else
      var p := NewlineAt(m.buffer);
      if p < |m.buffer| then AfterLine(m.(buffer := m.buffer[p + 1..]), Parse(d, m.sse, m.buffer[..p + 1]))
      else if m.items != [] then
        match m.items[0]
        case Chunk(bytes) =>
          var m' := m.(items := m.items[1..], received := m.received + |bytes|);
          if m'.received > LIMIT then Emit(Err(InvalidResponse), m'.(completed := true))
          else Again(m'.(buffer := m.buffer + bytes))
        case Fail(code) => Emit(Err(Transport(code)), m.(items := m.items[1..], completed := true))
      else if m.buffer != [] then AfterFlush(m.(buffer := []), Parse(d, m.sse, m.buffer))
      else if m.sse != "" then AfterFlush(m, Parse(d, m.sse, []))
      else Emit(Err(InvalidResponse), m.(completed := true))
  }

  // Every turn goes down in this order, whatever the decoders do.
  ghost predicate Below(a: Machine, b: Machine) {
    var x, y := if a.completed then 0 else 1, if b.completed then 0 else 1;
    || x < y
    || (x == y && (|a.items| < |b.items|
    || (|a.items| == |b.items| && (|a.buffer| < |b.buffer|
    || (|a.buffer| == |b.buffer| && (|a.sse| < |b.sse|
    || (|a.sse| == |b.sse| && |a.pending| < |b.pending|)))))))
  }

  lemma {:induction false} TurnGoesDown(d: Decoder, m: Machine)
    ensures TakeTurn(d, m).Emit? || TakeTurn(d, m).Again? ==> Below(TakeTurn(d, m).next, m)
  {
  }

  // Everything the stream yields from this state on.
  function Outputs(d: Decoder, m: Machine): seq<Output>
    decreases if m.completed then 0 else 1, |m.items|, |m.buffer|, |m.sse|, |m.pending|
  {
    TurnGoesDown(d, m);
    match TakeTurn(d, m)
    case Emit(output, next) => [output] + Outputs(d, next)
    case Again(next) => Outputs(d, next)
    case Stop => []
  }

  class Stream {
    const d: Decoder
    var items: seq<Item>
    var buffer: seq<Byte>
    var pending: seq<Event>
    var sse: string
    var received: nat
    var completed: bool

    ghost function View(): Machine reads this { Machine(items, buffer, pending, sse, received, completed) }

    constructor (d: Decoder, items: seq<Item>)
      ensures this.d == d && View() == Machine(items, [], [], "", 0, false)
    {
      this.d, this.items, buffer, pending, sse, received, completed := d, items, [], [], "", 0, false;
    }

    method Flush(line: seq<Byte>) returns (output: Option<Output>)
      requires pending == [] && !completed
      modifies this`pending, this`sse, this`completed
      ensures match AfterFlush(old(View()), Parse(d, old(sse), line))
        case Emit(o, next) => output == Some(o) && View() == next
        case Again(next) => output == None && View() == next
        case Stop => false
    {
      var parsed := Parse(d, sse, line);
      sse, pending, completed := parsed.sse, parsed.pending, parsed.completed;
      match parsed.result
      case Ok(Some(event)) => output := Some(Ok(event));
      case Ok(None) =>
        if completed {
          output := None;
        } else {
          completed := true;
          output := Some(Err(InvalidResponse));
        }
      case Err(_) =>
        completed := true;
        output := Some(Err(InvalidResponse));
    }

    method Line(newline: nat) returns (output: Option<Output>)
      requires pending == [] && !completed && newline < |buffer|
      modifies this`buffer, this`pending, this`sse, this`completed
      ensures match AfterLine(old(View()).(buffer := old(buffer)[newline + 1..]), Parse(d, old(sse), old(buffer)[..newline + 1]))
        case Emit(o, next) => output == Some(o) && View() == next
        case Again(next) => output == None && View() == next
        case Stop => false
    {
      var line := buffer[..newline + 1];
      buffer := buffer[newline + 1..];
      var parsed := Parse(d, sse, line);
      sse, pending, completed := parsed.sse, parsed.pending, parsed.completed;
      match parsed.result
      case Ok(Some(event)) => output := Some(Ok(event));
      case Ok(None) => output := None;
      case Err(error) =>
        completed := true;
        output := Some(Err(error));
    }

    // The body of the loop.
    method Turn() returns (stop: bool, output: Option<Output>)
      modifies this
      ensures match TakeTurn(d, old(View()))
        case Emit(o, next) => stop && output == Some(o) && View() == next
        case Again(next) => !stop && output == None && View() == next
        case Stop => stop && output == None && View() == old(View())
    {
      if pending != [] {
        stop, output, pending := true, Some(Ok(pending[0])), pending[1..];
        return;
      }
      if completed {
        return true, None;
      }
      var newline := NewlineAt(buffer);
      if newline < |buffer| {
        output := Line(newline);
        return output.Some?, output;
      }
      if items != [] {
        var item := items[0];
        items := items[1..];
        match item
        case Chunk(bytes) =>
          received := received + |bytes|;
          if received > LIMIT {
            completed := true;
            return true, Some(Err(InvalidResponse));
          }
          buffer := buffer + bytes;
          return false, None;
        case Fail(code) =>
          completed := true;
          return true, Some(Err(Transport(code)));
      }
      if buffer != [] {
        var line := buffer;
        buffer := [];
        output := Flush(line);
        return output.Some?, output;
      }
      if sse != "" {
        output := Flush([]);
        return output.Some?, output;
      }
      completed := true;
      return true, Some(Err(InvalidResponse));
    }

    /** One poll: it yields the first of the remaining outputs and leaves the others, or ends. */
    method Next() returns (output: Option<Output>)
      modifies this
      ensures Outputs(d, old(View())) == if output.Some? then [output.value] + Outputs(d, View()) else []
      ensures output.None? ==> View().completed && View().pending == []
    {
      var stop := false;
      output := None;
      while !stop
        invariant !stop ==> output == None && Outputs(d, old(View())) == Outputs(d, View())
        invariant stop && output.None? ==> Outputs(d, old(View())) == [] && completed && pending == []
        invariant stop && output.Some? ==> Outputs(d, old(View())) == [output.value] + Outputs(d, View())
        decreases !stop, if completed then 0 else 1, |items|, |buffer|, |sse|, |pending|
      {
        TurnGoesDown(d, View());
        stop, output := Turn();
      }
    }
  }

  // ---------------------------------------------------------------------------------------------
  // The reference: a fold over the whole response, cut at newlines only.

  // How the delivery ended: closed by the provider, or broken by an error.
  datatype Tail = Closed | Broken(error: Error)

  // The bytes delivered before the stream closed, failed or outgrew the limit, and how it ended.
  function Delivered(items: seq<Item>, received: nat): (seq<Byte>, Tail) {
    if items == [] then ([], Closed)
    else match items[0]
      case Fail(code) => ([], Broken(Transport(code)))
      case Chunk(bytes) =>
        if received + |bytes| > LIMIT then ([], Broken(InvalidResponse))
        else
          var (more, tail) := Delivered(items[1..], received + |bytes|);
          (bytes + more, tail)
  }

  function Oks(events: seq<Event>): seq<Output> { seq(|events|, i requires 0 <= i < |events| => Ok(events[i])) }

  function FirstOf(event: Option<Event>): seq<Output> { if event.Some? then [Ok(event.value)] else [] }

  // What one payload yields at once and queues.
  function Events(parsed: Parsed): seq<Output>
    requires parsed.result.Ok?
  {
    FirstOf(parsed.result.value) + Oks(parsed.pending)
  }

  // The end of a closed response whose last complete event has been dispatched.
  function Ending(d: Decoder, sse: string): seq<Output> {
    if sse == "" then [Err(InvalidResponse)]
    else
      var parsed := Parse(d, sse, []);
      match parsed.result
      case Ok(Some(event)) => [Ok(event)] + Oks(parsed.pending) + if parsed.completed then [] else [Err(InvalidResponse)]
      case Ok(None) => (if parsed.completed then [] else [Err(InvalidResponse)]) + Oks(parsed.pending)
      case Err(_) => [Err(InvalidResponse)]
  }

  // The last line of a closed response when no newline ends it.
  function LastLine(d: Decoder, sse: string, line: seq<Byte>): seq<Output> {
    var parsed := Parse(d, sse, line);
    match parsed.result
    case Ok(Some(event)) => [Ok(event)] + Oks(parsed.pending) + if parsed.completed then [] else Ending(d, parsed.sse)
    case Ok(None) => (if parsed.completed then [] else [Err(InvalidResponse)]) + Oks(parsed.pending)
    case Err(_) => [Err(InvalidResponse)]
  }

  function Fold(d: Decoder, sse: string, data: seq<Byte>, tail: Tail): seq<Output>
    decreases |data|
  {
    var p := NewlineAt(data);
    if p < |data| then
      var parsed := Parse(d, sse, data[..p + 1]);
      match parsed.result
      case Err(error) => [Err(error)]
      case Ok(first) =>
        FirstOf(first) + Oks(parsed.pending)
        + if parsed.completed then [] else Fold(d, parsed.sse, data[p + 1..], tail)
    else if tail.Broken? then [Err(tail.error)]
    else if data != [] then LastLine(d, sse, data)
    else Ending(d, sse)
  }

  // ---------------------------------------------------------------------------------------------
  // The machine computes the fold.

  lemma {:induction false} NewlineOfPrefix(a: seq<Byte>, b: seq<Byte>)
    requires NewlineAt(a) < |a|
    ensures NewlineAt(a + b) == NewlineAt(a)
  {
    if a[0] != NEWLINE {
      NewlineOfPrefix(a[1..], b);
      assert (a + b)[1..] == a[1..] + b;
    }
  }

  lemma {:induction false} OutputsByTurn(d: Decoder, m: Machine)
    ensures Outputs(d, m) ==
      match TakeTurn(d, m)
      case Emit(output, next) => [output] + Outputs(d, next)
      case Again(next) => Outputs(d, next)
      case Stop => []
  {
    hide TakeTurn;
  }

  lemma {:induction false} FirstPendingComesFirst(d: Decoder, m: Machine)
    requires m.pending != []
    ensures Outputs(d, m) == [Ok(m.pending[0])] + Outputs(d, m.(pending := m.pending[1..]))
  {
    hide Outputs, Parse, NewlineAt, AfterLine, AfterFlush;
    OutputsByTurn(d, m);
  }

  lemma {:induction false} OksByFirst(events: seq<Event>)
    requires events != []
    ensures Oks(events) == [Ok(events[0])] + Oks(events[1..])
  {
  }

  lemma {:induction false} NothingAfterCompletion(d: Decoder, m: Machine)
    requires m.completed && m.pending == []
    ensures Outputs(d, m) == []
  {
    hide Parse, NewlineAt, AfterLine, AfterFlush;
  }

  // Pending events come out first, whatever else the machine holds.
  lemma {:induction false} PendingComesFirst(d: Decoder, m: Machine)
    ensures Outputs(d, m) == Oks(m.pending) + Outputs(d, m.(pending := []))
    ensures m.completed ==> Outputs(d, m) == Oks(m.pending)
    decreases |m.pending|
  {
    hide Outputs, Oks;
    if m.pending == [] {
      assert m.(pending := []) == m;
      NoOks();
      if m.completed {
        NothingAfterCompletion(d, m);
      }
    } else {
      var next := m.(pending := m.pending[1..]);
      PendingComesFirst(d, next);
      FirstPendingComesFirst(d, m);
      OksByFirst(m.pending);
      assert next.(pending := []) == m.(pending := []);
    }
  }

  predicate Quiet(m: Machine) { m.pending == [] && !m.completed }

  lemma {:induction false} ErrorsQueueNothing(d: Decoder, sse: string, line: seq<Byte>)
    ensures Parse(d, sse, line).result.Err? ==> Parse(d, sse, line).pending == [] && !Parse(d, sse, line).completed
  {
  }

  lemma {:induction false} TextUsesUpData(d: Decoder, sse: string)
    requires Parse(d, sse, []).result.Ok? && Parse(d, sse, []).result.value.Some?
    ensures Parse(d, sse, []).sse == "" && sse != ""
  {
  }

  lemma {:induction false} EndingIsReached(d: Decoder, m: Machine)
    requires Quiet(m) && m.items == [] && m.buffer == []
    ensures Outputs(d, m) == Ending(d, m.sse)
    decreases |m.sse|
  {
    hide Outputs, Parse;
    OutputsByTurn(d, m);
    if m.sse == "" {
      PendingComesFirst(d, m.(completed := true));
    } else {
      var parsed := Parse(d, m.sse, []);
      var next := m.(sse := parsed.sse, pending := parsed.pending, completed := parsed.completed);
      PendingComesFirst(d, next);
      PendingComesFirst(d, next.(completed := true));
      ErrorsQueueNothing(d, m.sse, []);
      if parsed.result.Ok? && parsed.result.value.Some? && !parsed.completed {
        TextUsesUpData(d, m.sse);
        EndingIsReached(d, next.(pending := []));
      }
    }
  }

  lemma {:induction false} EventsOf(parsed: Parsed)
    requires parsed.result.Ok?
    ensures Events(parsed) == FirstOf(parsed.result.value) + Oks(parsed.pending)
  {
  }

  lemma {:induction false} NoOks()
    ensures Oks([]) == []
  {
  }

  lemma {:induction false} LastLineByEvents(d: Decoder, sse: string, line: seq<Byte>)
    ensures var parsed := Parse(d, sse, line);
      LastLine(d, sse, line) ==
        if parsed.result.Err? then [Err(InvalidResponse)]
        else if parsed.completed then Events(parsed)
        else if parsed.result.value.Some? then Events(parsed) + Ending(d, parsed.sse)
        else [Err(InvalidResponse)] + Events(parsed)
  {
    hide Parse, Ending, Oks;
  }

  lemma {:induction false} FlushTurn(d: Decoder, m: Machine, parsed: Parsed, next: Machine)
    requires Quiet(m) && m.items == [] && m.buffer != [] && NewlineAt(m.buffer) == |m.buffer|
    requires parsed == Parse(d, m.sse, m.buffer)
    requires next == m.(buffer := [], sse := parsed.sse, pending := parsed.pending, completed := parsed.completed)
    ensures Outputs(d, m) ==
      if parsed.result.Err? || (parsed.result.value.None? && !parsed.completed)
      then [Err(InvalidResponse)] + Outputs(d, next.(completed := true))
      else FirstOf(parsed.result.value) + Outputs(d, next)
  {
    hide Parse, Outputs, NewlineAt, AfterLine;
    OutputsByTurn(d, m);
  }

  lemma {:induction false} LastLineIsReached(d: Decoder, m: Machine)
    requires Quiet(m) && m.items == [] && m.buffer != [] && NewlineAt(m.buffer) == |m.buffer|
    ensures Outputs(d, m) == LastLine(d, m.sse, m.buffer)
  {
    hide Parse, Ending, Outputs, LastLine, NewlineAt, Events, Oks, FirstOf;
    var parsed := Parse(d, m.sse, m.buffer);
    var next := m.(buffer := [], sse := parsed.sse, pending := parsed.pending, completed := parsed.completed);
    FlushTurn(d, m, parsed, next);
    LastLineByEvents(d, m.sse, m.buffer);
    NoOks();
    if parsed.result.Err? {
      ErrorsQueueNothing(d, m.sse, m.buffer);
      PendingComesFirst(d, next.(completed := true));
    } else {
      EventsOf(parsed);
      if parsed.completed {
        PendingComesFirst(d, next);
      } else if parsed.result.value.Some? {
        PendingComesFirst(d, next);
        EndingIsReached(d, next.(pending := []));
      } else {
        FirstOfNothing();
        PendingComesFirst(d, next.(completed := true));
      }
    }
  }

  lemma {:induction false} FirstOfNothing()
    ensures FirstOf(None) == []
  {
  }

  function Rest(m: Machine): seq<Byte> { Delivered(m.items, m.received).0 }

  function Tailed(m: Machine): Tail { Delivered(m.items, m.received).1 }

  lemma {:induction false} FirstLineOfPrefix(a: seq<Byte>, b: seq<Byte>)
    requires NewlineAt(a) < |a|
    ensures var p := NewlineAt(a);
      NewlineAt(a + b) == p && (a + b)[..p + 1] == a[..p + 1] && (a + b)[p + 1..] == a[p + 1..] + b
  {
    NewlineOfPrefix(a, b);
  }

  lemma {:induction false} FoldByLine(d: Decoder, sse: string, data: seq<Byte>, tail: Tail)
    requires NewlineAt(data) < |data|
    ensures var p := NewlineAt(data);
      var parsed := Parse(d, sse, data[..p + 1]);
      Fold(d, sse, data, tail) ==
        if parsed.result.Err? then [Err(parsed.result.error)]
        else if parsed.completed then Events(parsed)
        else Events(parsed) + Fold(d, parsed.sse, data[p + 1..], tail)
  {
    hide Parse, NewlineAt, Ending, LastLine;
  }

  lemma {:induction false} LineTurn(d: Decoder, m: Machine, parsed: Parsed, next: Machine)
    requires Quiet(m) && NewlineAt(m.buffer) < |m.buffer|
    requires parsed == Parse(d, m.sse, m.buffer[..NewlineAt(m.buffer) + 1])
    requires next == m.(buffer := m.buffer[NewlineAt(m.buffer) + 1..], sse := parsed.sse, pending := parsed.pending, completed := parsed.completed)
    ensures parsed.result.Ok? ==> Outputs(d, m) == FirstOf(parsed.result.value) + Outputs(d, next)
    ensures parsed.result.Err? ==> Outputs(d, m) == [Err(parsed.result.error)] + Outputs(d, next.(completed := true))
  {
    hide Parse, Outputs, NewlineAt, AfterFlush;
    OutputsByTurn(d, m);
  }

  lemma {:induction false} OutputsByLine(d: Decoder, m: Machine)
    requires Quiet(m) && NewlineAt(m.buffer) < |m.buffer|
    ensures var p := NewlineAt(m.buffer);
      var parsed := Parse(d, m.sse, m.buffer[..p + 1]);
      Outputs(d, m) ==
        if parsed.result.Err? then [Err(parsed.result.error)]
        else if parsed.completed then Events(parsed)
        else Events(parsed) + Outputs(d, m.(sse := parsed.sse, buffer := m.buffer[p + 1..]))
  {
    hide Parse, Outputs, NewlineAt, TakeTurn, Events, Oks, FirstOf;
    var p := NewlineAt(m.buffer);
    var parsed := Parse(d, m.sse, m.buffer[..p + 1]);
    var next := m.(buffer := m.buffer[p + 1..], sse := parsed.sse, pending := parsed.pending, completed := parsed.completed);
    LineTurn(d, m, parsed, next);
    if parsed.result.Err? {
      PendingComesFirst(d, next.(completed := true));
      ErrorsQueueNothing(d, m.sse, m.buffer[..p + 1]);
      NoOks();
    } else {
      PendingComesFirst(d, next);
      EventsOf(parsed);
      if !parsed.completed {
        assert next.(pending := []) == m.(sse := parsed.sse, buffer := m.buffer[p + 1..]);
      }
    }
  }

  lemma {:induction false} LineStep(d: Decoder, m: Machine)
    requires Quiet(m) && NewlineAt(m.buffer) < |m.buffer|
    requires var p := NewlineAt(m.buffer);
      var parsed := Parse(d, m.sse, m.buffer[..p + 1]);
      !parsed.completed ==>
        var next := m.(sse := parsed.sse, buffer := m.buffer[p + 1..]);
        Outputs(d, next) == Fold(d, next.sse, next.buffer + Rest(next), Tailed(next))
    ensures Outputs(d, m) == Fold(d, m.sse, m.buffer + Rest(m), Tailed(m))
  {
    hide Parse, Delivered, Outputs, Fold, NewlineAt, Events;
    OutputsByLine(d, m);
    FirstLineOfPrefix(m.buffer, Rest(m));
    FoldByLine(d, m.sse, m.buffer + Rest(m), Tailed(m));
  }

  lemma {:induction false} ChunkStep(d: Decoder, m: Machine, next: Machine)
    requires Quiet(m) && NewlineAt(m.buffer) == |m.buffer| && m.items != []
    requires m.items[0].Chunk? && m.received + |m.items[0].bytes| <= LIMIT
    requires next == m.(items := m.items[1..], received := m.received + |m.items[0].bytes|, buffer := m.buffer + m.items[0].bytes)
    ensures Outputs(d, m) == Outputs(d, next)
    ensures m.buffer + Rest(m) == next.buffer + Rest(next) && Tailed(m) == Tailed(next)
  {
    hide Outputs, Parse, AfterLine, AfterFlush;
    OutputsByTurn(d, m);
    assert Rest(m) == m.items[0].bytes + Rest(next);
  }

  lemma {:induction false} BreakStep(d: Decoder, m: Machine)
    requires Quiet(m) && NewlineAt(m.buffer) == |m.buffer| && m.items != []
    requires m.items[0].Chunk? ==> m.received + |m.items[0].bytes| > LIMIT
    ensures Outputs(d, m) == Fold(d, m.sse, m.buffer + Rest(m), Tailed(m))
  {
    hide Outputs, Parse, AfterLine, AfterFlush;
    OutputsByTurn(d, m);
    assert m.buffer + Rest(m) == m.buffer;
    PendingComesFirst(d, TakeTurn(d, m).next);
  }

  /** From any quiet state the stream yields the fold over the buffered and the remaining bytes. */
  lemma {:induction false} RunIsFold(d: Decoder, m: Machine)
    requires Quiet(m)
    ensures Outputs(d, m) == Fold(d, m.sse, m.buffer + Rest(m), Tailed(m))
    decreases |m.items|, |m.buffer|
  {
    hide Parse, Outputs;
    var p := NewlineAt(m.buffer);
    if p < |m.buffer| {
      var parsed := Parse(d, m.sse, m.buffer[..p + 1]);
      if !parsed.completed {
        RunIsFold(d, m.(sse := parsed.sse, buffer := m.buffer[p + 1..]));
      }
      LineStep(d, m);
    } else if m.items != [] {
      if m.items[0].Chunk? && m.received + |m.items[0].bytes| <= LIMIT {
        var bytes := m.items[0].bytes;
        var next := m.(items := m.items[1..], received := m.received + |bytes|, buffer := m.buffer + bytes);
        RunIsFold(d, next);
        ChunkStep(d, m, next);
      } else {
        BreakStep(d, m);
      }
    } else {
      assert m.buffer + Rest(m) == m.buffer;
      if m.buffer != [] {
        LastLineIsReached(d, m);
      } else {
        EndingIsReached(d, m);
      }
    }
  }

  function Fresh(items: seq<Item>): Machine { Machine(items, [], [], "", 0, false) }

  // The bytes that arrive before the first transport failure, and that failure.
  function Bytes(items: seq<Item>): seq<Byte> {
    if items == [] || items[0].Fail? then [] else items[0].bytes + Bytes(items[1..])
  }

  function Failure(items: seq<Item>): Option<nat> {
    if items == [] then None else if items[0].Fail? then Some(items[0].code) else Failure(items[1..])
  }

  lemma {:induction false} SmallResponsesArriveWhole(items: seq<Item>, received: nat)
    requires received + |Bytes(items)| <= LIMIT
    ensures Delivered(items, received) ==
      (Bytes(items), if Failure(items).Some? then Broken(Transport(Failure(items).value)) else Closed)
  {
    if items != [] && items[0].Chunk? {
      SmallResponsesArriveWhole(items[1..], received + |items[0].bytes|);
    }
  }

  /** How the network cuts a response of at most 4 MiB into chunks changes no event and no error. */
  lemma {:induction false} ChunkingIsIrrelevant(d: Decoder, a: seq<Item>, b: seq<Item>)
    requires Bytes(a) == Bytes(b) && |Bytes(a)| <= LIMIT && Failure(a) == Failure(b)
    ensures Outputs(d, Fresh(a)) == Outputs(d, Fresh(b))
  {
    SmallResponsesArriveWhole(a, 0);
    SmallResponsesArriveWhole(b, 0);
    RunIsFold(d, Fresh(a));
    RunIsFold(d, Fresh(b));
  }

  // ---------------------------------------------------------------------------------------------
  // Verdicts: a stream is completed or fails, once.

  predicate IsVerdict(output: Output) { output.Err? || output.value.Completed? }

  predicate Silent(outputs: seq<Output>) { forall i :: 0 <= i < |outputs| ==> !IsVerdict(outputs[i]) }

  // The only verdict is at position k, and a completion is the last output.
  ghost predicate DecidedAt(outputs: seq<Output>, k: nat) {
    && k < |outputs| && IsVerdict(outputs[k])
    && Silent(outputs[..k]) && Silent(outputs[k + 1..])
    && (outputs[k].Ok? ==> k == |outputs| - 1)
  }

  lemma {:induction false} DecidedAfter(a: seq<Output>, b: seq<Output>, k: nat)
    requires Silent(a) && DecidedAt(b, k)
    ensures DecidedAt(a + b, |a| + k)
  {
    assert (a + b)[..|a| + k] == a + b[..k];
    assert (a + b)[|a| + k + 1..] == b[k + 1..];
  }

  lemma {:induction false} CallsAreSilent(calls: seq<Call>)
    ensures Silent(Oks(CallEvents(calls)))
  {
    if calls != [] {
      CallsAreSilent(calls[1..]);
      var rest := CallEvents(calls[1..]);
      forall i | 0 <= i < |CallEvents(calls)| ensures !IsVerdict(Oks(CallEvents(calls))[i]) {
        assert i > 0 ==> !IsVerdict(Oks(rest)[i - 1]);
      }
    }
  }

  lemma {:induction false} CompletedIsDecided()
    ensures DecidedAt([Ok(Completed)], 0)
  {
  }

  lemma {:induction false} SilentJoin(a: seq<Event>, b: seq<Event>)
    requires Silent(Oks(a)) && Silent(Oks(b))
    ensures Silent(Oks(a + b)) && Oks(a + b) == Oks(a) + Oks(b)
  {
    assert Oks(a + b) == Oks(a) + Oks(b);
  }

  // One event at once, `quiet` ones queued, and the completion when the payload finishes the response.
  lemma {:induction false} QuietShape(parsed: Parsed, quiet: seq<Event>)
    requires parsed.result.Ok? && Silent(FirstOf(parsed.result.value)) && Silent(Oks(quiet))
    requires parsed.pending == quiet + if parsed.completed then [Completed] else []
    ensures if parsed.completed then Events(parsed) != [] && DecidedAt(Events(parsed), |Events(parsed)| - 1) else Silent(Events(parsed))
  {
    var before := FirstOf(parsed.result.value) + Oks(quiet);
    if parsed.completed {
      assert Events(parsed) == before + [Ok(Completed)];
      CompletedIsDecided();
      DecidedAfter(before, [Ok(Completed)], 0);
    } else {
      assert Events(parsed) == before;
    }
  }

  lemma {:induction false} DispatchShape(d: Decoder, sse: string, payload: string)
    requires Dispatch(d, sse, payload).result.Ok?
    ensures var parsed := Dispatch(d, sse, payload);
      if parsed.completed then Events(parsed) != [] && DecidedAt(Events(parsed), |Events(parsed)| - 1) else Silent(Events(parsed))
  {
    hide DecidedAt, Events, Oks, CallEvents;
    var value := d.json(payload).value;
    var parsed := Dispatch(d, sse, payload);
    if d.ollama {
      var counts := if value.usage.Some? then value.usage.value else Counts(0, 0, 0);
      var quiet := if value.finished then [Usage(counts.inputTokens, counts.outputTokens, 0)] else [];
      assert Silent(Oks(quiet)) by { UsageIsSilent(quiet); }
      QuietShape(parsed, quiet);
    } else {
      assert Silent(Oks(UsageEvents(value.usage))) by { UsageIsSilent(UsageEvents(value.usage)); }
      CallsAreSilent(value.calls);
      SilentJoin(UsageEvents(value.usage), CallEvents(value.calls));
      QuietShape(parsed, UsageEvents(value.usage) + CallEvents(value.calls));
    }
  }

  lemma {:induction false} UsageIsSilent(quiet: seq<Event>)
    requires forall i :: 0 <= i < |quiet| ==> quiet[i].Usage?
    ensures Silent(Oks(quiet))
  {
  }

  // A payload yields no verdict unless it finishes the response, and then its last event completes it.
  lemma {:induction false} PayloadShape(d: Decoder, sse: string, line: seq<Byte>)
    requires Parse(d, sse, line).result.Ok?
    ensures var parsed := Parse(d, sse, line);
      if parsed.completed then Events(parsed) != [] && DecidedAt(Events(parsed), |Events(parsed)| - 1) else Silent(Events(parsed))
  {
    hide TrimStart, TrimEnd, IsSpace, Dispatch;
    var text := TrimEnd(TrimStart(d.text(line).value));
    if d.ollama && text != "" {
      DispatchShape(d, sse, text);
    }
    if !d.ollama && !("data:" <= text) && text == "" && sse != "" && sse != "[DONE]" {
      DispatchShape(d, "", sse);
    }
  }

  // What is left when every complete line has been parsed without a verdict: the accumulated event data
  // and the unterminated last line.
  function Leftover(d: Decoder, sse: string, data: seq<Byte>): Option<(string, seq<Byte>)>
    decreases |data|
  {
    var p := NewlineAt(data);
    if p < |data| then
      var parsed := Parse(d, sse, data[..p + 1]);
      if parsed.result.Err? || parsed.completed then None else Leftover(d, parsed.sse, data[p + 1..])
    else Some((sse, data))
  }

  // The last, unterminated event queues tool calls or usage, but has no text and does not finish.
  predicate EndsInQuietEvent(d: Decoder, sse: string, data: seq<Byte>) {
    var left := Leftover(d, sse, data);
    && left.Some?
    && var parsed := Parse(d, left.value.0, left.value.1);
       parsed.result == Ok(None) && parsed.pending != [] && !parsed.completed
  }

  lemma {:induction false} OneErrorIsDecided(error: Error)
    ensures DecidedAt([Err(error)], 0)
  {
  }

  lemma {:induction false} ErrorBeforeSilence(error: Error, rest: seq<Output>)
    requires Silent(rest)
    ensures DecidedAt([Err(error)] + rest, 0)
  {
    assert ([Err(error)] + rest)[1..] == rest;
  }

  lemma {:induction false} QuietEventAtEnd(d: Decoder, sse: string, line: seq<Byte>)
    requires NewlineAt(line) == |line|
    ensures var parsed := Parse(d, sse, line);
      EndsInQuietEvent(d, sse, line) <==> parsed.result == Ok(None) && parsed.pending != [] && !parsed.completed
  {
    hide Parse, NewlineAt;
  }

  lemma {:induction false} NoDataNoEvent(d: Decoder)
    ensures Parse(d, "", []) == Parsed("", [], false, Ok(None))
  {
  }

  lemma {:induction false} EndingIsDecided(d: Decoder, sse: string) returns (k: nat)
    ensures DecidedAt(Ending(d, sse), k)
    ensures k == |Ending(d, sse)| - 1 <==> !EndsInQuietEvent(d, sse, [])
  {
    hide Parse, DecidedAt, Silent, Events, EndsInQuietEvent;
    k := 0;
    OneErrorIsDecided(InvalidResponse);
    NoDataNoEvent(d);
    var parsed := Parse(d, sse, []);
    QuietEventAtEnd(d, sse, []);
    if sse != "" && parsed.result.Ok? {
      PayloadShape(d, sse, []);
      EventsOf(parsed);
      if parsed.completed {
        assert Ending(d, sse) == Events(parsed);
        k := |Events(parsed)| - 1;
      } else if parsed.result.value.Some? {
        DecidedAfter(Events(parsed), [Err(InvalidResponse)], 0);
        assert Ending(d, sse) == Events(parsed) + [Err(InvalidResponse)];
        k := |Events(parsed)|;
      } else {
        ErrorBeforeSilence(InvalidResponse, Events(parsed));
        assert Ending(d, sse) == [Err(InvalidResponse)] + Events(parsed);
      }
    }
  }

  lemma {:induction false} LastLineIsDecided(d: Decoder, sse: string, line: seq<Byte>) returns (k: nat)
    requires NewlineAt(line) == |line|
    ensures DecidedAt(LastLine(d, sse, line), k)
    ensures k == |LastLine(d, sse, line)| - 1 <==> !EndsInQuietEvent(d, sse, line)
  {
    LastLineByEvents(d, sse, line);
    QuietEventAtEnd(d, sse, line);
    hide Parse, Ending, DecidedAt, Silent, Events, EndsInQuietEvent, LastLine, NewlineAt;
    k := 0;
    var parsed := Parse(d, sse, line);
    if parsed.result.Err? {
      OneErrorIsDecided(InvalidResponse);
    } else {
      PayloadShape(d, sse, line);
      EventsOf(parsed);
      if parsed.completed {
        k := |Events(parsed)| - 1;
      } else if parsed.result.value.Some? {
        var j := EndingIsDecided(d, parsed.sse);
        TextLeavesNoData(d, sse, line);
        DecidedAfter(Events(parsed), Ending(d, parsed.sse), j);
        k := |Events(parsed)| + j;
      } else {
        ErrorBeforeSilence(InvalidResponse, Events(parsed));
      }
    }
  }

  lemma {:induction false} TextLeavesNoData(d: Decoder, sse: string, line: seq<Byte>)
    requires Parse(d, sse, line).result.Ok? && Parse(d, sse, line).result.value.Some?
    ensures !EndsInQuietEvent(d, Parse(d, sse, line).sse, [])
  {
    hide TrimStart, TrimEnd, IsSpace;
  }

  lemma {:induction false} FoldIsDecided(d: Decoder, sse: string, data: seq<Byte>, tail: Tail) returns (k: nat)
    ensures DecidedAt(Fold(d, sse, data, tail), k)
    ensures k == |Fold(d, sse, data, tail)| - 1 <==> !(tail.Closed? && EndsInQuietEvent(d, sse, data))
    decreases |data|
  {
    hide Parse, NewlineAt, DecidedAt, Silent, Events, Fold, EndsInQuietEvent;
    k := 0;
    var p := NewlineAt(data);
    if p < |data| {
      FoldByLine(d, sse, data, tail);
      QuietEventByLine(d, sse, data);
      var parsed := Parse(d, sse, data[..p + 1]);
      if parsed.result.Err? {
        OneErrorIsDecided(parsed.result.error);
      } else {
        PayloadShape(d, sse, data[..p + 1]);
        if parsed.completed {
          k := |Events(parsed)| - 1;
        } else {
          var j := FoldIsDecided(d, parsed.sse, data[p + 1..], tail);
          DecidedAfter(Events(parsed), Fold(d, parsed.sse, data[p + 1..], tail), j);
          k := |Events(parsed)| + j;
        }
      }
    } else {
      k := FoldEndIsDecided(d, sse, data, tail);
    }
  }

  lemma {:induction false} QuietEventByLine(d: Decoder, sse: string, data: seq<Byte>)
    requires NewlineAt(data) < |data|
    ensures var p := NewlineAt(data);
      var parsed := Parse(d, sse, data[..p + 1]);
      EndsInQuietEvent(d, sse, data) <==>
        parsed.result.Ok? && !parsed.completed && EndsInQuietEvent(d, parsed.sse, data[p + 1..])
  {
    hide Parse, NewlineAt;
  }

  lemma {:induction false} FoldEndIsDecided(d: Decoder, sse: string, data: seq<Byte>, tail: Tail) returns (k: nat)
    requires NewlineAt(data) == |data|
    ensures DecidedAt(Fold(d, sse, data, tail), k)
    ensures k == |Fold(d, sse, data, tail)| - 1 <==> !(tail.Closed? && EndsInQuietEvent(d, sse, data))
  {
    hide Parse, NewlineAt, Ending, LastLine, DecidedAt, Silent, EndsInQuietEvent;
    k := 0;
    if tail.Broken? {
      OneErrorIsDecided(tail.error);
    } else if data != [] {
      k := LastLineIsDecided(d, sse, data);
    } else {
      k := EndingIsDecided(d, sse);
    }
  }

  /** Every stream ends, with one verdict: an error, or a completion that nothing follows. */
  lemma {:induction false} OneVerdict(d: Decoder, items: seq<Item>) returns (k: nat)
    ensures DecidedAt(Outputs(d, Fresh(items)), k)
    ensures k == |Outputs(d, Fresh(items))| - 1 <==>
      !(Delivered(items, 0).1.Closed? && EndsInQuietEvent(d, "", Delivered(items, 0).0))
  {
    RunIsFold(d, Fresh(items));
    assert [] + Delivered(items, 0).0 == Delivered(items, 0).0;
    k := FoldIsDecided(d, "", Delivered(items, 0).0, Delivered(items, 0).1);
  }

  // The text carries no white space at its ends.
  predicate IsTrimmed(text: string) { text != "" && !IsSpace(text[0]) && !IsSpace(text[|text| - 1]) }

  // One `data:` line, ended by its only newline, with an event that has no text, does not finish, and queues something.
  ghost predicate IsQuietLine(d: Decoder, line: seq<Byte>, payload: string) {
    && !d.ollama && line != [] && NewlineAt(line) == |line| - 1
    && IsTrimmed(payload) && payload != "[DONE]" && d.text(line) == Some("data:" + payload + "\n")
    && d.json(payload).Some? && d.json(payload).value.text == "" && !d.json(payload).value.finished
    && (d.json(payload).value.usage.Some? || d.json(payload).value.calls != [])
  }

  function Queued(value: Payload): seq<Event> { UsageEvents(value.usage) + CallEvents(value.calls) }

  lemma {:induction false} QuietLineParses(d: Decoder, line: seq<Byte>, payload: string)
    requires IsQuietLine(d, line, payload)
    ensures Parse(d, "", line) == Parsed(payload, [], false, Ok(None))
    ensures Parse(d, payload, []) == Parsed("", Queued(d.json(payload).value), false, Ok(None))
  {
    var text := "data:" + payload;
    assert TrimStart(text + "\n") == text + "\n";
    assert (text + "\n")[..|text|] == text && TrimEnd(text) == text;
    assert TrimEnd(text + "\n") == text;
    assert text[5..] == payload && TrimStart(payload) == payload;
    assert Queued(d.json(payload).value) + [] == Queued(d.json(payload).value);
  }

  /** An error is not always the last output: what such a line queues follows the error of a response that ends
      with the line, however it is delivered. */
  lemma {:induction false} QueueFollowsTheError(d: Decoder, items: seq<Item>, payload: string)
    requires IsQuietLine(d, Bytes(items), payload) && |Bytes(items)| <= LIMIT && Failure(items) == None
    ensures Queued(d.json(payload).value) != []
    ensures Outputs(d, Fresh(items)) == [Err(InvalidResponse)] + Oks(Queued(d.json(payload).value))
  {
    hide Parse, IsTrimmed, NewlineAt;
    var line := Bytes(items);
    SmallResponsesArriveWhole(items, 0);
    RunIsFold(d, Fresh(items));
    assert [] + line == line;
    assert line[..|line|] == line && line[|line|..] == [];
    QuietLineParses(d, line, payload);
    NoNewlineInNothing();
    assert Fold(d, "", line, Closed) == FirstOf(None) + Oks([]) + Fold(d, payload, [], Closed);
    assert Fold(d, payload, [], Closed) == Ending(d, payload);
    IsTrimmedIsNotEmpty(payload);
  }

  lemma {:induction false} NoNewlineInNothing()
    ensures NewlineAt([]) == 0
  {
  }

  lemma {:induction false} IsTrimmedIsNotEmpty(text: string)
    requires IsTrimmed(text)
    ensures text != ""
  {
  }

  // The bytes of a text below U+0080, and back.
  predicate IsAscii(text: string) { forall i :: 0 <= i < |text| ==> text[i] as int < 128 }

  function AsciiBytes(text: string): seq<Byte>
    requires IsAscii(text)
  {
    seq(|text|, i requires 0 <= i < |text| => text[i] as int as Byte)
  }

  function AsciiText(bytes: seq<Byte>): (text: Option<string>)
    ensures bytes == [] ==> text == Some("")
  {
    if bytes == [] then Some("")
    else if forall i :: 0 <= i < |bytes| ==> bytes[i] < 128
    then Some(seq(|bytes|, i requires 0 <= i < |bytes| && bytes[i] < 128 => bytes[i] as int as char))
    else None
  }

  lemma {:induction false} NewlineIsLast(bytes: seq<Byte>)
    requires bytes != [] && bytes[|bytes| - 1] == NEWLINE && forall i :: 0 <= i < |bytes| - 1 ==> bytes[i] != NEWLINE
    ensures NewlineAt(bytes) == |bytes| - 1
  {
    if |bytes| > 1 {
      NewlineIsLast(bytes[1..]);
    }
  }

  lemma {:induction false} AsciiLine(payload: string) returns (line: seq<Byte>)
    requires IsAscii(payload) && '\n' !in payload
    ensures IsAscii("data:" + payload + "\n") && line == AsciiBytes("data:" + payload + "\n")
    ensures |line| == |payload| + 6 && NewlineAt(line) == |line| - 1 && AsciiText(line) == Some("data:" + payload + "\n")
  {
    var text := "data:" + payload + "\n";
    assert forall i :: 5 <= i < |text| - 1 ==> text[i] == payload[i - 5];
    line := AsciiBytes(text);
    NewlineIsLast(line);
    assert AsciiText(line).value == text;
  }

  /** Such responses exist for a decoder that reads plain ASCII: one chunk with the bytes of one `data:` line. */
  lemma {:induction false} UsageFollowsAnError(json: string -> Option<Payload>, payload: string)
    requires IsAscii(payload) && '\n' !in payload && IsTrimmed(payload) && payload != "[DONE]" && |payload| + 6 <= LIMIT
    requires json(payload).Some? && json(payload).value.text == "" && !json(payload).value.finished
    requires json(payload).value.usage.Some?
    ensures IsAscii("data:" + payload + "\n")
    ensures var d: Decoder := Decoders(false, AsciiText, json);
      Outputs(d, Fresh([Item.Chunk(AsciiBytes("data:" + payload + "\n"))])) ==
        [Err(InvalidResponse)] + Oks(Queued(json(payload).value))
    ensures Queued(json(payload).value)[..1] == UsageEvents(json(payload).value.usage)
  {
    hide Outputs, Fold, Parse, NewlineAt, IsTrimmed, AsciiText, AsciiBytes, IsAscii;
    var d: Decoder := Decoders(false, AsciiText, json);
    var line := AsciiLine(payload);
    var items := [Item.Chunk(line)];
    assert Bytes(items) == line + Bytes([]) && Failure(items) == Failure([]);
    assert line + Bytes([]) == line && d.text(line) == AsciiText(line) && d.json(payload) == json(payload);
    assert IsQuietLine(d, Bytes(items), payload);
    QueueFollowsTheError(d, items, payload);
  }

  // ---------------------------------------------------------------------------------------------
  // What a response says, event by event.

  predicate IsBlank(text: string) { forall i :: 0 <= i < |text| ==> IsSpace(text[i]) }

  // One line, ended by its only newline: `mark` and `text`, with any white space around and between.
  ghost predicate IsLineOf(d: Decoder, line: seq<Byte>, mark: string, text: string) {
    && line != [] && NewlineAt(line) == |line| - 1
    && exists lead, gap, ending :: IsBlank(lead) && IsBlank(gap) && IsBlank(ending)
        && d.text(line) == Some(lead + (mark + gap + text) + ending)
  }

  function Joined(parts: seq<string>): string
    requires parts != []
  {
    if |parts| == 1 then parts[0] else parts[0] + "\n" + Joined(parts[1..])
  }

  // One event as a provider sends it: for ollama one line, otherwise `data:` lines and a blank line.
  datatype Message = Message(lines: seq<seq<Byte>>, parts: seq<string>)

  ghost predicate Carries(d: Decoder, m: Message, payload: string) {
    && m.parts != [] && payload == Joined(m.parts) && (forall i :: 0 <= i < |m.parts| ==> IsTrimmed(m.parts[i]))
    && if d.ollama then |m.lines| == |m.parts| == 1 && IsLineOf(d, m.lines[0], "", payload)
       else
         && |m.lines| == |m.parts| + 1 && IsLineOf(d, m.lines[|m.parts|], "", "")
         && forall i :: 0 <= i < |m.parts| ==> IsLineOf(d, m.lines[i], "data:", m.parts[i])
  }

  function Flat(lines: seq<seq<Byte>>): seq<Byte> { if lines == [] then [] else lines[0] + Flat(lines[1..]) }

  // What one payload means: its text, its usage, its tool calls, and whether it is the last.
  function Meaning(ollama: bool, v: Payload): seq<Event> {
    (if v.text == "" then [] else [TextDelta(v.text)])
    + (if ollama then
        if !v.finished then []
        else if v.usage.None? then [Usage(0, 0, 0)]
        else [Usage(v.usage.value.inputTokens, v.usage.value.outputTokens, 0)]
      else
        (if v.usage.None? then []
         else [Usage(v.usage.value.inputTokens, v.usage.value.outputTokens, v.usage.value.cachedTokens)])
        + seq(|v.calls|, i requires 0 <= i < |v.calls| => ToolCall(v.calls[i].id, v.calls[i].name, v.calls[i].input)))
    + (if v.finished then [Completed] else [])
  }

  lemma {:induction false} CallsInOrder(calls: seq<Call>)
    ensures CallEvents(calls) ==
      seq(|calls|, i requires 0 <= i < |calls| => ToolCall(calls[i].id, calls[i].name, calls[i].input))
  {
    if calls != [] {
      CallsInOrder(calls[1..]);
    }
  }

  lemma {:induction false} OksJoin(a: seq<Event>, b: seq<Event>)
    ensures Oks(a + b) == Oks(a) + Oks(b)
  {
  }

  lemma {:induction false} DispatchMeans(d: Decoder, sse: string, payload: string)
    requires d.json(payload).Some?
    ensures var value, parsed := d.json(payload).value, Dispatch(d, sse, payload);
      parsed.sse == sse && parsed.result.Ok? && parsed.completed == value.finished && Events(parsed) == Oks(Meaning(d.ollama, value))
  {
    var value, parsed := d.json(payload).value, Dispatch(d, sse, payload);
    CallsInOrder(value.calls);
    var first := if value.text == "" then [] else [TextDelta(value.text)];
    assert Meaning(d.ollama, value) == first + parsed.pending;
    OksJoin(first, parsed.pending);
    assert FirstOf(TextEvent(value.text)) == Oks(first);
  }

  lemma {:induction false} BlankStartGoes(gap: string, text: string)
    requires IsBlank(gap) && (text == "" || !IsSpace(text[0]))
    ensures TrimStart(gap + text) == text
  {
    if gap == "" {
      assert gap + text == text;
    } else {
      BlankStartGoes(gap[1..], text);
      assert (gap + text)[1..] == gap[1..] + text;
    }
  }

  lemma {:induction false} BlankEndGoes(text: string, ending: string)
    requires IsBlank(ending) && (text == "" || !IsSpace(text[|text| - 1]))
    ensures TrimEnd(text + ending) == text
  {
    if ending == "" {
      assert text + ending == text;
    } else {
      BlankEndGoes(text, ending[..|ending| - 1]);
      assert (text + ending)[..|text + ending| - 1] == text + ending[..|ending| - 1];
    }
  }

  // What is left of a line after trimming, and of its data after the mark.
  lemma {:induction false} LineIsTrimmed(d: Decoder, line: seq<Byte>, mark: string, text: string) returns (gap: string)
    requires IsLineOf(d, line, mark, text) && (mark == "data:" || mark == "")
    requires IsTrimmed(text) || (mark == "" && text == "")
    ensures IsBlank(gap) && d.text(line).Some? && TrimEnd(TrimStart(d.text(line).value)) == mark + gap + text
    ensures mark == "" ==> mark + gap + text == text
    ensures TrimStart(gap + text) == text
  {
    var lead, between, ending :| IsBlank(lead) && IsBlank(between) && IsBlank(ending)
      && d.text(line) == Some(lead + (mark + between + text) + ending);
    gap := if mark == "" then "" else between;
    var core := mark + gap + text;
    if mark == "" {
      assert core == text && lead + (mark + between + text) + ending == (lead + between) + (text + ending);
      if text == "" {
        assert (lead + between) + (text + ending) == lead + between + ending + "";
        BlankStartGoes(lead + between + ending, "");
        assert text + "" == "" && TrimEnd("") == "";
      } else {
        BlankStartGoes(lead + between, text + ending);
        BlankEndGoes(text, ending);
      }
    } else {
      assert core[0] == 'd' && core[|core| - 1] == text[|text| - 1];
      assert lead + (mark + between + text) + ending == lead + (core + ending);
      BlankStartGoes(lead, core + ending);
      BlankEndGoes(core, ending);
    }
    BlankStartGoes(gap, text);
  }

  lemma {:induction false} DataLineParses(d: Decoder, sse: string, line: seq<Byte>, part: string)
    requires !d.ollama && IsLineOf(d, line, "data:", part) && IsTrimmed(part)
    ensures Parse(d, sse, line) == Parsed((if sse == "" then "" else sse + "\n") + part, [], false, Ok(None))
  {
    var gap := LineIsTrimmed(d, line, "data:", part);
    hide TrimStart, TrimEnd, IsSpace;
    assert ("data:" + gap + part)[5..] == gap + part;
  }

  lemma {:induction false} BlankLineParses(d: Decoder, sse: string, line: seq<Byte>)
    requires !d.ollama && IsLineOf(d, line, "", "") && sse != ""
    ensures Parse(d, sse, line) ==
      if sse == "[DONE]" then Parsed("", [], true, Ok(Some(Completed))) else Dispatch(d, "", sse)
  {
    var gap := LineIsTrimmed(d, line, "", "");
    hide TrimStart, TrimEnd, IsSpace;
  }

  lemma {:induction false} OllamaLineParses(d: Decoder, line: seq<Byte>, payload: string)
    requires d.ollama && IsLineOf(d, line, "", payload) && IsTrimmed(payload)
    ensures Parse(d, "", line) == Dispatch(d, "", payload)
  {
    var gap := LineIsTrimmed(d, line, "", payload);
    hide TrimStart, TrimEnd, IsSpace;
  }

  lemma {:induction false} FoldFirstLine(d: Decoder, sse: string, line: seq<Byte>, rest: seq<Byte>, tail: Tail)
    requires line != [] && NewlineAt(line) == |line| - 1
    ensures var parsed := Parse(d, sse, line);
      Fold(d, sse, line + rest, tail) ==
        if parsed.result.Err? then [Err(parsed.result.error)]
        else if parsed.completed then Events(parsed)
        else Events(parsed) + Fold(d, parsed.sse, rest, tail)
  {
    FirstLineOfPrefix(line, rest);
    FoldByLine(d, sse, line + rest, tail);
    assert line[..|line|] == line && line[|line|..] + rest == rest;
    hide Parse, Fold, Events;
  }

  lemma {:induction false} DataLinesFold(
      d: Decoder, sse: string, lines: seq<seq<Byte>>, parts: seq<string>, rest: seq<Byte>, tail: Tail)
    requires !d.ollama && parts != [] && |lines| == |parts|
    requires forall i :: 0 <= i < |parts| ==> IsTrimmed(parts[i]) && IsLineOf(d, lines[i], "data:", parts[i])
    ensures Fold(d, sse, Flat(lines) + rest, tail) ==
      Fold(d, if sse == "" then Joined(parts) else sse + "\n" + Joined(parts), rest, tail)
    decreases |parts|
  {
    hide Fold, Parse, IsLineOf, IsTrimmed;
    var data := (if sse == "" then "" else sse + "\n") + parts[0];
    var after := Flat(lines[1..]) + rest;
    DataLineParses(d, sse, lines[0], parts[0]);
    LineEnds(d, lines[0], "data:", parts[0]);
    FoldFirstLine(d, sse, lines[0], after, tail);
    EventsOf(Parse(d, sse, lines[0]));
    NoOks();
    assert Flat(lines) + rest == lines[0] + after;
    assert Fold(d, sse, Flat(lines) + rest, tail) == Fold(d, data, after, tail);
    IsTrimmedIsNotEmpty(parts[0]);
    if |parts| == 1 {
      assert Flat(lines[1..]) == [] && after == rest;
      assert "" + parts[0] == parts[0];
    } else {
      DataLinesFold(d, data, lines[1..], parts[1..], rest, tail);
      assert sse != "" ==> data + "\n" + Joined(parts[1..]) == sse + "\n" + Joined(parts);
      assert sse == "" ==> data + "\n" + Joined(parts[1..]) == Joined(parts);
    }
  }

  lemma {:induction false} LineEnds(d: Decoder, line: seq<Byte>, mark: string, text: string)
    requires IsLineOf(d, line, mark, text)
    ensures line != [] && NewlineAt(line) == |line| - 1
  {
  }

  lemma {:induction false} JoinedIsNotEmpty(parts: seq<string>)
    requires parts != [] && parts[0] != ""
    ensures Joined(parts) != ""
  {
  }

  // What one message yields, whatever follows it.
  function Yielded(d: Decoder, payload: string): Parsed {
    if !d.ollama && payload == "[DONE]" then Parsed("", [], true, Ok(Some(Completed))) else Dispatch(d, "", payload)
  }

  lemma {:induction false} MessageFolds(d: Decoder, m: Message, payload: string, rest: seq<Byte>, tail: Tail)
    requires Carries(d, m, payload)
    ensures Fold(d, "", Flat(m.lines) + rest, tail) ==
      if Yielded(d, payload).result.Err? then [Err(Yielded(d, payload).result.error)]
      else if Yielded(d, payload).completed then Events(Yielded(d, payload))
      else Events(Yielded(d, payload)) + Fold(d, Yielded(d, payload).sse, rest, tail)
  {
    hide Fold, Parse, IsLineOf, Dispatch, Events;
    if d.ollama {
      OllamaLineParses(d, m.lines[0], payload);
      LineEnds(d, m.lines[0], "", payload);
      assert Flat(m.lines[1..]) == [] && Flat(m.lines) == m.lines[0];
      FoldFirstLine(d, "", m.lines[0], rest, tail);
    } else {
      var n := |m.parts|;
      var blank := m.lines[n];
      IsTrimmedIsNotEmpty(m.parts[0]);
      JoinedIsNotEmpty(m.parts);
      FlatOfLast(m.lines);
      assert m.lines[..|m.lines| - 1] == m.lines[..n];
      assert Flat(m.lines) + rest == Flat(m.lines[..n]) + (blank + rest);
      DataLinesFold(d, "", m.lines[..n], m.parts, blank + rest, tail);
      BlankLineParses(d, payload, blank);
      LineEnds(d, blank, "", "");
      FoldFirstLine(d, payload, blank, rest, tail);
    }
  }

  lemma {:induction false} FlatOfLast(lines: seq<seq<Byte>>)
    requires lines != []
    ensures Flat(lines) == Flat(lines[..|lines| - 1]) + lines[|lines| - 1]
  {
    if |lines| > 1 {
      FlatOfLast(lines[1..]);
      assert lines[1..][..|lines| - 2] == lines[..|lines| - 1][1..];
    } else {
      assert Flat(lines[1..]) == [];
    }
  }

  // Messages one after the other, none of which ends the response.
  ghost predicate Conversation(d: Decoder, messages: seq<Message>, payloads: seq<string>, values: seq<Payload>) {
    && |messages| == |payloads| == |values|
    && forall i :: 0 <= i < |messages| ==>
      && Carries(d, messages[i], payloads[i]) && (!d.ollama ==> payloads[i] != "[DONE]")
      && d.json(payloads[i]) == Some(values[i]) && !values[i].finished
  }

  function Sent(messages: seq<Message>): seq<Byte> {
    if messages == [] then [] else Flat(messages[0].lines) + Sent(messages[1..])
  }

  function Meanings(ollama: bool, values: seq<Payload>): seq<Event> {
    if values == [] then [] else Meaning(ollama, values[0]) + Meanings(ollama, values[1..])
  }

  lemma {:induction false} ConversationFolds(
      d: Decoder, messages: seq<Message>, payloads: seq<string>, values: seq<Payload>, rest: seq<Byte>, tail: Tail)
    requires Conversation(d, messages, payloads, values)
    ensures Fold(d, "", Sent(messages) + rest, tail) == Oks(Meanings(d.ollama, values)) + Fold(d, "", rest, tail)
  {
    hide Fold, Carries, Dispatch, Meaning, Oks, Events;
    if messages == [] {
      NoOks();
      assert Sent(messages) + rest == rest;
    } else {
      var after := Sent(messages[1..]) + rest;
      assert Sent(messages) + rest == Flat(messages[0].lines) + after;
      MessageFolds(d, messages[0], payloads[0], after, tail);
      DispatchMeans(d, "", payloads[0]);
      ConversationFolds(d, messages[1..], payloads[1..], values[1..], rest, tail);
      OksJoin(Meaning(d.ollama, values[0]), Meanings(d.ollama, values[1..]));
    }
  }

  // How a conversation ends: by a payload that finishes it, by the marker, by a payload that cannot be decoded, or
  // with nothing more.
  datatype End = Finishing(value: Payload) | Marker | Garbled | Nothing

  ghost predicate EndsWith(d: Decoder, last: Message, payload: string, end: End) {
    match end
    case Finishing(value) =>
      Carries(d, last, payload) && (!d.ollama ==> payload != "[DONE]") && d.json(payload) == Some(value) && value.finished
    case Marker => !d.ollama && Carries(d, last, payload) && payload == "[DONE]"
    case Garbled => Carries(d, last, payload) && (!d.ollama ==> payload != "[DONE]") && d.json(payload).None?
    case Nothing => last == Message([], [])
  }

  // The verdict, and what the last payload has to say before it.
  function LastWords(ollama: bool, end: End, failure: Option<nat>): seq<Output> {
    match end
    case Finishing(value) => Oks(Meaning(ollama, value))
    case Marker => [Ok(Completed)]
    case Garbled => [Err(InvalidResponse)]
    case Nothing => [Err(if failure.Some? then Transport(failure.value) else InvalidResponse)]
  }

  lemma {:induction false} EndFolds(d: Decoder, last: Message, payload: string, end: End, rest: seq<Byte>, failure: Option<nat>)
    requires EndsWith(d, last, payload, end) && (end.Nothing? ==> rest == [])
    ensures Fold(d, "", Flat(last.lines) + rest, if failure.Some? then Broken(Transport(failure.value)) else Closed) ==
      LastWords(d.ollama, end, failure)
  {
    hide Carries, Dispatch, Meaning, Events;
    var tail := if failure.Some? then Broken(Transport(failure.value)) else Closed;
    if end.Nothing? {
      NoNewlineInNothing();
      assert Flat(last.lines) + rest == [];
    } else {
      MessageFolds(d, last, payload, rest, tail);
      hide Fold;
      if end.Finishing? {
        DispatchMeans(d, "", payload);
      } else if end.Marker? {
        EventsOf(Yielded(d, payload));
        NoOks();
      } else {
        GarbledFails(d, payload);
      }
    }
  }

  lemma {:induction false} GarbledFails(d: Decoder, payload: string)
    requires d.json(payload).None?
    ensures Dispatch(d, "", payload).result == Err(InvalidResponse)
  {
  }

  /** For every decoder of either dialect, and however the response is cut: the stream yields what each payload means,
      one after the other, and then the last words. What comes after a payload that ends the response is ignored. */
  lemma {:induction false} ResponseSaysItsPayloads(
      d: Decoder, items: seq<Item>, messages: seq<Message>, payloads: seq<string>, values: seq<Payload>,
      last: Message, payload: string, end: End, rest: seq<Byte>)
    requires Conversation(d, messages, payloads, values) && EndsWith(d, last, payload, end) && (end.Nothing? ==> rest == [])
    requires Bytes(items) == Sent(messages) + (Flat(last.lines) + rest) && |Bytes(items)| <= LIMIT
    ensures Outputs(d, Fresh(items)) == Oks(Meanings(d.ollama, values)) + LastWords(d.ollama, end, Failure(items))
  {
    hide Outputs, Fold, Conversation, EndsWith, Meanings, LastWords, Oks;
    SmallResponsesArriveWhole(items, 0);
    RunIsFold(d, Fresh(items));
    assert [] + Bytes(items) == Bytes(items);
    ConversationFolds(d, messages, payloads, values, Flat(last.lines) + rest, Delivered(items, 0).1);
    EndFolds(d, last, payload, end, rest, Failure(items));
  }
}

// The chunked, cursor-addressed output log of one terminal: the columns of its `terminals` row that
// describe output, and its rows of `output_chunks` in cursor order (crates/gobrowse-sandboxd/src/journal.rs).
module OutputLog {
  import opened Basics

  const MAX_TERMINAL_OUTPUT_BYTES: nat := 64 * 1024 * 1024
  const MAX_TERMINAL_OUTPUT_CHUNK_BYTES: nat := 32 * 1024
  const I64_LIMIT: nat := 0x8000_0000_0000_0000

  datatype JournalError = Sqlite | Corrupt | Conflict | NotFound | OutcomeUnknown

  datatype Chunk = Chunk(start: nat, end: nat, data: seq<Byte>)

  datatype Log = Log(chunks: seq<Chunk>, start: nat, end: nat, ack: nat, bytes: nat, complete: bool)

  const EMPTY_LOG := Log([], 0, 0, 0, 0, true)

  // The rows that one append inserts from `cursor` on.
  function Pieces(cursor: nat, bytes: seq<Byte>): seq<Chunk>
    decreases |bytes|
  {
    if bytes == [] then []
    else
      var n := Min(|bytes|, MAX_TERMINAL_OUTPUT_CHUNK_BYTES);
      [Chunk(cursor, cursor + n, bytes[..n])] + Pieces(cursor + n, bytes[n..])
  }

  function Append(log: Log, bytes: seq<Byte>): (Log, nat) {
    if !log.complete || log.bytes >= MAX_TERMINAL_OUTPUT_BYTES then (log.(complete := false), 0)
    else
      var accepted := Min(|bytes|, MAX_TERMINAL_OUTPUT_BYTES - log.bytes);
      (log.(chunks := log.chunks + Pieces(log.end, bytes[..accepted]),
            end := log.end + accepted,
            bytes := log.bytes + accepted,
            complete := accepted == |bytes|), accepted)
  }

  // The rows whose end lies above `cursor`: what a read selects and what an acknowledgement keeps.
  function Above(chunks: seq<Chunk>, cursor: nat): seq<Chunk> {
    if chunks == [] then []
    else (if chunks[0].end > cursor then [chunks[0]] else []) + Above(chunks[1..], cursor)
  }

  function Ack(log: Log, cursor: nat): Result<(Log, nat), JournalError> {
    if cursor >= I64_LIMIT then Err(Corrupt)
    else if cursor > log.end then Err(Conflict)
    else
      var ack := Max(cursor, log.ack);
      Ok((log.(chunks := Above(log.chunks, ack), ack := ack, start := Max(log.start, ack)), ack))
  }

  predicate Damaged(chunk: Chunk) {
    chunk.end - chunk.start != |chunk.data| || |chunk.data| > MAX_TERMINAL_OUTPUT_CHUNK_BYTES
  }

  // The bytes of `chunk` from `next` on, at most `room` of them.
  function Slice(chunk: Chunk, next: nat, room: nat): (part: seq<Byte>)
    ensures |part| <= room
  {
    var offset := Max(next - chunk.start, 0);
    if offset >= |chunk.data| then [] else chunk.data[offset..offset + Min(room, |chunk.data| - offset)]
  }

  function Gather(rows: seq<Chunk>, next: nat, room: nat): Result<seq<Byte>, JournalError> {
    if room == 0 || rows == [] then Ok([])
    else if Damaged(rows[0]) then Err(Corrupt)
    else
      var part := Slice(rows[0], next, room);
      match Gather(rows[1..], next + |part|, room - |part|)
      case Err(e) => Err(e)
      case Ok(more) => Ok(part + more)
  }

  // Start of the returned bytes and the bytes; the next cursor is their sum.
  function Read(log: Log, after: nat, room: nat): Result<(nat, seq<Byte>), JournalError> {
    if after > log.end then Err(Conflict)
    else
      var start := Max(after, log.start);
      match Gather(Above(log.chunks, start), start, room)
      case Err(e) => Err(e)
      case Ok(bytes) => Ok((start, bytes))
  }

  // ---------------------------------------------------------------------------------------------
  // Refinement of a plain byte stream.

  // `chunks` cut stream[lo..hi] into consecutive non-empty pieces of bounded size.
  ghost predicate Tiles(chunks: seq<Chunk>, stream: seq<Byte>, lo: nat, hi: nat)
    requires lo <= hi <= |stream|
  {
    if chunks == [] then lo == hi
    else
      && lo == chunks[0].start < chunks[0].end <= hi
      && chunks[0].end - lo <= MAX_TERMINAL_OUTPUT_CHUNK_BYTES
      && chunks[0].data == stream[lo..chunks[0].end]
      && Tiles(chunks[1..], stream, chunks[0].end, hi)
  }

  ghost predicate Refines(log: Log, stream: seq<Byte>) {
    && log.bytes == log.end == |stream| <= MAX_TERMINAL_OUTPUT_BYTES
    && log.start == log.ack <= log.end
    && if log.chunks == [] then log.ack == log.end
       else
         && log.chunks[0].start <= log.ack < log.chunks[0].end
         && log.chunks[0].start <= log.end
         && Tiles(log.chunks, stream, log.chunks[0].start, log.end)
  }

  lemma {:induction false} PiecesTile(stream: seq<Byte>, cursor: nat)
    requires cursor <= |stream|
    ensures Tiles(Pieces(cursor, stream[cursor..]), stream, cursor, |stream|)
    decreases |stream| - cursor
  {
    if cursor < |stream| {
      var n := Min(|stream| - cursor, MAX_TERMINAL_OUTPUT_CHUNK_BYTES);
      assert stream[cursor..][n..] == stream[cursor + n..];
      assert stream[cursor..][..n] == stream[cursor..cursor + n];
      PiecesTile(stream, cursor + n);
    }
  }

  lemma {:induction false} TilesJoin(a: seq<Chunk>, b: seq<Chunk>, stream: seq<Byte>, longer: seq<Byte>, lo: nat)
    requires lo <= |stream| && stream <= longer
    requires Tiles(a, stream, lo, |stream|) && Tiles(b, longer, |stream|, |longer|)
    ensures Tiles(a + b, longer, lo, |longer|)
  {
    if a == [] {
      assert a + b == b;
    } else {
      TilesJoin(a[1..], b, stream, longer, a[0].end);
      assert (a + b)[1..] == a[1..] + b;
      assert longer[lo..a[0].end] == stream[lo..a[0].end];
    }
  }

  /** An append extends the stream by the accepted prefix of what was offered. */
  lemma {:induction false} AppendRefines(log: Log, stream: seq<Byte>, bytes: seq<Byte>)
    requires Refines(log, stream)
    ensures var (log', accepted) := Append(log, bytes);
      && accepted <= |bytes|
      && Refines(log', stream + bytes[..accepted])
      && log'.ack == log.ack
      && log'.complete == (log.complete && |stream| < MAX_TERMINAL_OUTPUT_BYTES && accepted == |bytes|)
      && (log.complete && |stream| < MAX_TERMINAL_OUTPUT_BYTES
          ==> accepted == Min(|bytes|, MAX_TERMINAL_OUTPUT_BYTES - |stream|))
      && (!log.complete || |stream| >= MAX_TERMINAL_OUTPUT_BYTES ==> accepted == 0)
  {
    var (log', accepted) := Append(log, bytes);
    var longer := stream + bytes[..accepted];
    if !log.complete || log.bytes >= MAX_TERMINAL_OUTPUT_BYTES {
      assert longer == stream;
    } else {
      var added := Pieces(log.end, bytes[..accepted]);
      assert longer[log.end..] == bytes[..accepted];
      PiecesTile(longer, log.end);
      var lo := if log.chunks == [] then log.end else log.chunks[0].start;
      TilesJoin(log.chunks, added, stream, longer, lo);
      if log.chunks == [] {
        assert log.chunks + added == added;
      } else {
        assert (log.chunks + added)[0] == log.chunks[0];
      }
    }
  }

  lemma {:induction false} AboveTiles(chunks: seq<Chunk>, stream: seq<Byte>, lo: nat, cursor: nat)
    requires lo <= cursor <= |stream| && Tiles(chunks, stream, lo, |stream|)
    ensures var kept := Above(chunks, cursor);
      if kept == [] then cursor == |stream|
      else
        && kept[0].start <= cursor < kept[0].end
        && kept[0].start <= |stream| && Tiles(kept, stream, kept[0].start, |stream|)
  {
    if chunks != [] {
      if chunks[0].end > cursor {
        AboveKeepsAll(chunks[1..], stream, chunks[0].end, cursor);
        assert Above(chunks, cursor) == chunks;
      } else {
        AboveTiles(chunks[1..], stream, chunks[0].end, cursor);
        assert Above(chunks, cursor) == Above(chunks[1..], cursor);
      }
    }
  }

  lemma {:induction false} AboveKeepsAll(chunks: seq<Chunk>, stream: seq<Byte>, lo: nat, cursor: nat)
    requires cursor <= lo <= |stream| && Tiles(chunks, stream, lo, |stream|)
    ensures Above(chunks, cursor) == chunks
  {
    if chunks != [] {
      AboveKeepsAll(chunks[1..], stream, chunks[0].end, cursor);
    }
  }

  /** An acknowledgement moves the low mark up to the cursor, never down and never past the end, and
      keeps every byte at or above it; the stream itself does not change. */
  lemma {:induction false} AckRefines(log: Log, stream: seq<Byte>, cursor: nat)
    requires Refines(log, stream)
    ensures cursor <= log.end <==> Ack(log, cursor).Ok?
    ensures cursor > |stream| ==> Ack(log, cursor) == Err(if cursor >= I64_LIMIT then Corrupt else Conflict)
    ensures cursor <= log.end ==>
      var (log', ack) := Ack(log, cursor).value;
      Refines(log', stream) && log'.ack == ack == Max(cursor, log.ack) && log'.complete == log.complete
  {
    if cursor <= log.end {
      var ack := Max(cursor, log.ack);
      if log.chunks != [] {
        AboveTiles(log.chunks, stream, log.chunks[0].start, ack);
      }
    }
  }

  lemma {:induction false} SliceOfTile(chunk: Chunk, stream: seq<Byte>, next: nat, room: nat)
    requires chunk.start <= next < chunk.end <= |stream| && chunk.data == stream[chunk.start..chunk.end]
    ensures Slice(chunk, next, room) == stream[next..Min(next + room, chunk.end)]
  {
    assert Max(next - chunk.start, 0) == next - chunk.start;
  }

  lemma {:induction false} SlicesJoin(stream: seq<Byte>, lo: nat, mid: nat, hi: nat)
    requires lo <= mid <= hi <= |stream|
    ensures stream[lo..mid] + stream[mid..hi] == stream[lo..hi]
  {
  }

  lemma {:induction false} GatherIsSlice(rows: seq<Chunk>, stream: seq<Byte>, lo: nat, next: nat, room: nat)
    requires lo <= next <= |stream| && Tiles(rows, stream, lo, |stream|)
    requires if rows == [] then next == |stream| else next < rows[0].end
    ensures Gather(rows, next, room) == Ok(stream[next..Min(next + room, |stream|)])
    decreases rows
  {
    if room != 0 && rows != [] {
      SliceOfTile(rows[0], stream, next, room);
      var part := Slice(rows[0], next, room);
      var mid := next + |part|;
      if room > |part| {
        GatherIsSlice(rows[1..], stream, rows[0].end, mid, room - |part|);
        SlicesJoin(stream, next, mid, Min(next + room, |stream|));
      } else {
        assert part + [] == part;
      }
    } else {
      assert stream[next..next] == [];
    }
  }

  /** A read returns exactly the slice of the stream from max(after, acked), of at most `room` bytes. */
  lemma {:induction false} ReadIsSlice(log: Log, stream: seq<Byte>, after: nat, room: nat)
    requires Refines(log, stream)
    ensures Read(log, after, room) ==
      if after > |stream| then Err(Conflict)
      else var start := Max(after, log.ack); Ok((start, stream[start..Min(start + room, |stream|)]))
  {
    if after <= |stream| {
      var start := Max(after, log.start);
      if log.chunks != [] {
        AboveTiles(log.chunks, stream, log.chunks[0].start, start);
      }
      var rows := Above(log.chunks, start);
      if rows != [] {
        GatherIsSlice(rows, stream, rows[0].start, start, room);
      } else {
        assert stream[start..Min(start + room, |stream|)] == [];
      }
    }
  }

  // ---------------------------------------------------------------------------------------------
  // Whole histories of one terminal's output, as the runtime produces them.

  datatype Call =
    | Offer(data: seq<Byte>)   // append_output
    | AckTo(cursor: nat)       // ack_output
    | MarkIncomplete           // set_state with Some(false), and reconcile_restart

  datatype History = History(log: Log, stream: seq<Byte>, offered: seq<Byte>)

  function Step(h: History, call: Call): History {
    match call
    case Offer(data) =>
      var (log, accepted) := Append(h.log, data);
      History(log, h.stream + data[..Min(accepted, |data|)], h.offered + data)
    case AckTo(cursor) =>
      (match Ack(h.log, cursor)
       case Ok(done) => h.(log := done.0)
       case Err(_) => h)
    case MarkIncomplete => h.(log := h.log.(complete := false))
  }

  function After(calls: seq<Call>): History {
    if calls == [] then History(EMPTY_LOG, [], [])
    else Step(After(calls[..|calls| - 1]), calls[|calls| - 1])
  }

  lemma {:induction false} AfterOneMore(calls: seq<Call>, call: Call)
    ensures After(calls + [call]) == Step(After(calls), call)
  {
    assert (calls + [call])[..|calls|] == calls;
  }

  ghost predicate Faithful(h: History) {
    && Refines(h.log, h.stream)
    && h.stream <= h.offered
    && (h.log.complete ==> h.stream == h.offered)
  }

  lemma {:induction false} StepKeepsFaithful(h: History, call: Call)
    requires Faithful(h)
    ensures Faithful(Step(h, call))
    ensures h.stream <= Step(h, call).stream
    ensures h.log.ack <= Step(h, call).log.ack
    ensures !h.log.complete ==> !Step(h, call).log.complete && Step(h, call).stream == h.stream
  {
    match call
    case Offer(data) =>
      AppendRefines(h.log, h.stream, data);
      var accepted := Append(h.log, data).1;
      if accepted == |data| {
        assert data[..accepted] == data;
      }
      assert h.log.complete ==> h.stream + data[..accepted] <= h.offered + data;
      assert !h.log.complete ==> h.stream + data[..accepted] == h.stream;
    case AckTo(cursor) => AckRefines(h.log, h.stream, cursor);
    case MarkIncomplete =>
  }

  /** After any calls: the log refines the stream, the stream is a prefix of everything offered and stays
      below the cap, and nothing offered has been dropped while the log is marked complete. */
  lemma {:induction false} EveryHistoryIsFaithful(calls: seq<Call>)
    ensures Faithful(After(calls))
    ensures |After(calls).stream| <= MAX_TERMINAL_OUTPUT_BYTES
  {
    if calls != [] {
      EveryHistoryIsFaithful(calls[..|calls| - 1]);
      StepKeepsFaithful(After(calls[..|calls| - 1]), calls[|calls| - 1]);
    }
  }

  /** Between any two moments: the stream and the acknowledged mark only grow, and once the log is
      incomplete it stays incomplete and stores nothing more. */
  lemma {:induction false} HistoryOnlyGrows(calls: seq<Call>, more: seq<Call>)
    ensures var before, after := After(calls), After(calls + more);
      && before.stream <= after.stream
      && before.log.ack <= after.log.ack <= |after.stream|
      && (!before.log.complete ==> !after.log.complete && after.stream == before.stream)
  {
    EveryHistoryIsFaithful(calls);
    if more == [] {
      assert calls + more == calls;
    } else {
      var past, call := more[..|more| - 1], more[|more| - 1];
      assert calls + more == (calls + past) + [call];
      HistoryOnlyGrows(calls, past);
      EveryHistoryIsFaithful(calls + past);
      AfterOneMore(calls + past, call);
      StepKeepsFaithful(After(calls + past), call);
    }
  }

  // A reader that follows `next_cursor` and acknowledges only what it has read, interleaved with
  // appends, output failures and restarts, and with failed acknowledgements.
  datatype ReaderCall = Grow(data: seq<Byte>) | Fail | Fetch(room: nat) | Confirm(cursor: nat)

  datatype Reader = Reader(history: History, cursor: nat, got: seq<Byte>)

  function ReaderStep(r: Reader, call: ReaderCall): Reader {
    match call
    case Grow(data) => r.(history := Step(r.history, Offer(data)))
    case Fail => r.(history := Step(r.history, MarkIncomplete))
    case Fetch(room) =>
      (match Read(r.history.log, r.cursor, room)
       case Ok(done) => r.(cursor := done.0 + |done.1|, got := r.got + done.1)
       case Err(_) => r)
    case Confirm(cursor) =>
      if cursor <= r.cursor then r.(history := Step(r.history, AckTo(cursor))) else r
  }

  function ReaderAfter(calls: seq<ReaderCall>): Reader {
    if calls == [] then Reader(After([]), 0, [])
    else ReaderStep(ReaderAfter(calls[..|calls| - 1]), calls[|calls| - 1])
  }

  ghost predicate InStep(r: Reader) {
    && Faithful(r.history)
    && r.history.log.ack <= r.cursor <= |r.history.stream|
    && r.got == r.history.stream[..r.cursor]
  }

  lemma {:induction false} AppendKeepsReader(r: Reader, data: seq<Byte>)
    requires InStep(r)
    ensures InStep(ReaderStep(r, Grow(data)))
  {
    StepKeepsFaithful(r.history, Offer(data));
    AppendRefines(r.history.log, r.history.stream, data);
  }

  lemma {:induction false} FetchKeepsReader(r: Reader, room: nat)
    requires InStep(r)
    ensures InStep(ReaderStep(r, Fetch(room)))
    ensures ReaderStep(r, Fetch(room)).cursor == Min(r.cursor + room, |r.history.stream|)
  {
    var stream, end := r.history.stream, Min(r.cursor + room, |r.history.stream|);
    ReadIsSlice(r.history.log, stream, r.cursor, room);
    SlicesJoin(stream, 0, r.cursor, end);
  }

  lemma {:induction false} ConfirmKeepsReader(r: Reader, cursor: nat)
    requires InStep(r)
    ensures InStep(ReaderStep(r, Confirm(cursor)))
  {
    if cursor <= r.cursor {
      StepKeepsFaithful(r.history, AckTo(cursor));
      AckRefines(r.history.log, r.history.stream, cursor);
    }
  }

  /** The reader has received every byte of the stream up to its cursor once and in order, and no byte
      it still needs has been discarded. */
  lemma {:induction false} ReaderGetsEveryByteOnce(calls: seq<ReaderCall>)
    ensures var r := ReaderAfter(calls);
      && Faithful(r.history)
      && r.history.log.ack <= r.cursor <= |r.history.stream|
      && r.got == r.history.stream[..r.cursor]
  {
    if calls == [] {
      EveryHistoryIsFaithful([]);
    } else {
      ReaderGetsEveryByteOnce(calls[..|calls| - 1]);
      var before := ReaderAfter(calls[..|calls| - 1]);
      match calls[|calls| - 1]
      case Grow(data) => AppendKeepsReader(before, data);
      case Fail => StepKeepsFaithful(before.history, MarkIncomplete);
      case Fetch(room) => FetchKeepsReader(before, room);
      case Confirm(cursor) => ConfirmKeepsReader(before, cursor);
    }
  }

  /** Every fetch with room for a byte makes progress until the reader has the whole stream. */
  lemma {:induction false} FetchMakesProgress(calls: seq<ReaderCall>, room: nat)
    ensures var r := ReaderAfter(calls);
      ReaderStep(r, Fetch(room)).cursor == Min(r.cursor + room, |r.history.stream|)
  {
    ReaderGetsEveryByteOnce(calls);
    hide ReaderAfter, ReaderStep, Faithful;
    FetchKeepsReader(ReaderAfter(calls), room);
  }
}

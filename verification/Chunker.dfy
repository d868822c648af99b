// Splitting a text into overlapping chunks (crates/gobrowse-core/src/library.rs, `chunk_text`). A text is a sequence
// of Unicode scalar values; its bytes are their UTF-8 encodings (section 3 of RFC 3629).
module Chunker {
  import opened Basics

  datatype BookChunk = BookChunk(ordinal: nat, text: string, tokenEstimate: nat, sourceStart: nat, sourceEnd: nat)

  function Encode(c: char): (bytes: seq<Byte>)
    ensures 1 <= |bytes| <= 4
  {
    var n := c as int;
    if n < 0x80 then [n as Byte]
    else if n < 0x800 then [(0xC0 + n / 64) as Byte, (0x80 + n % 64) as Byte]
    else if n < 0x1_0000 then [(0xE0 + n / 4096) as Byte, (0x80 + n / 64 % 64) as Byte, (0x80 + n % 64) as Byte]
    else [(0xF0 + n / 262144) as Byte, (0x80 + n / 4096 % 64) as Byte, (0x80 + n / 64 % 64) as Byte, (0x80 + n % 64) as Byte]
  }

  function Utf8(text: string): seq<Byte> {
    if text == "" then [] else Utf8(text[..|text| - 1]) + Encode(text[|text| - 1])
  }

  // Where a character begins in the bytes of the text; the length of the text, for its end.
  function Offset(text: string, k: nat): nat
    requires k <= |text|
  {
    |Utf8(text[..k])|
  }

  // The character at which chunk number k starts.
  function Start(maxChars: nat, overlapChars: nat, k: nat): nat
    requires overlapChars < maxChars
  {
    if k == 0 then 0 else Start(maxChars, overlapChars, k - 1) + maxChars - overlapChars
  }

  lemma {:induction false} StartOfNext(maxChars: nat, overlapChars: nat, k: nat)
    requires overlapChars < maxChars
    ensures Start(maxChars, overlapChars, 0) == 0
    ensures Start(maxChars, overlapChars, k + 1) == Start(maxChars, overlapChars, k) + maxChars - overlapChars
  {
  }

  /** Chunks start at the multiples of the maximum less the overlap. */
  lemma {:induction false} StartIsAMultiple(maxChars: nat, overlapChars: nat, k: nat)
    requires overlapChars < maxChars
    ensures Start(maxChars, overlapChars, k) == k * (maxChars - overlapChars)
  {
    if k > 0 {
      StartIsAMultiple(maxChars, overlapChars, k - 1);
      assert k * (maxChars - overlapChars) == (k - 1) * (maxChars - overlapChars) + (maxChars - overlapChars);
    }
  }

  // What chunk number k is.
  function ChunkAt(body: string, maxChars: nat, overlapChars: nat, k: nat): BookChunk
    requires overlapChars < maxChars && Start(maxChars, overlapChars, k) < |body|
  {
    var start := Start(maxChars, overlapChars, k);
    var end := Min(start + maxChars, |body|);
    BookChunk(k, body[start..end], (end - start + 3) / 4, Offset(body, start), Offset(body, end))
  }

  // Chunk k reaches the end of the text, and no earlier one does.
  predicate IsLast(body: string, maxChars: nat, overlapChars: nat, k: nat)
    requires overlapChars < maxChars
  {
    && Start(maxChars, overlapChars, k) + maxChars >= |body|
    && (k > 0 ==> Start(maxChars, overlapChars, k - 1) + maxChars < |body|)
  }

  ghost predicate IsChunking(body: string, maxChars: nat, overlapChars: nat, chunks: seq<BookChunk>)
    requires overlapChars < maxChars
  {
    && (body == "" <==> chunks == [])
    && (chunks != [] ==> IsLast(body, maxChars, overlapChars, |chunks| - 1))
    && (forall k :: 0 <= k < |chunks| ==>
      Start(maxChars, overlapChars, k) < |body| && chunks[k] == ChunkAt(body, maxChars, overlapChars, k))
  }

  // str::char_indices
  method CharIndices(text: string) returns (chars: seq<(nat, char)>)
    ensures |chars| == |text|
    ensures forall k :: 0 <= k < |text| ==> chars[k] == (Offset(text, k), text[k])
  {
    chars := [];
    var offset := 0;
    var i := 0;
    while i < |text|
      invariant 0 <= i <= |text| && |chars| == i
      invariant offset == Offset(text, i)
      invariant forall k :: 0 <= k < i ==> chars[k] == (Offset(text, k), text[k])
    {
      assert text[..i + 1][..i] == text[..i];
      chars := chars + [(offset, text[i])];
      offset := offset + |Encode(text[i])|;
      i := i + 1;
    }
  }

  method CutChunk(body: string, chars: seq<(nat, char)>, maxChars: nat, overlapChars: nat, ordinal: nat, charStart: nat)
      returns (chunk: BookChunk, charEnd: nat)
    requires overlapChars < maxChars && charStart == Start(maxChars, overlapChars, ordinal) < |body|
    requires |chars| == |body| && forall k :: 0 <= k < |body| ==> chars[k] == (Offset(body, k), body[k])
    ensures charEnd == Min(charStart + maxChars, |body|)
    ensures chunk == ChunkAt(body, maxChars, overlapChars, ordinal)
  {
    hide Start, Encode, Utf8;
    charEnd := Min(charStart + maxChars, |chars|);
    var byteStart := chars[charStart].0;
    var byteEnd := if charEnd < |chars| then chars[charEnd].0 else |Utf8(body)|;
    assert body[..|body|] == body;
    var text := body[charStart..charEnd];
    chunk := BookChunk(ordinal, text, (|text| + 3) / 4, byteStart, byteEnd);
  }

  method ChunkText(body: string, maxChars: nat, overlapChars: nat) returns (chunks: seq<BookChunk>)
    requires overlapChars < maxChars
    ensures IsChunking(body, maxChars, overlapChars, chunks)
  {
    hide Start, ChunkAt, Offset;
    var chars := CharIndices(body);
    StartOfNext(maxChars, overlapChars, 0);
    chunks := [];
    if |chars| == 0 {
      return;
    }
    var charStart := 0;
    while charStart < |chars|
      invariant charStart == Start(maxChars, overlapChars, |chunks|) < |body|
      invariant forall k :: 0 <= k < |chunks| ==>
        Start(maxChars, overlapChars, k) < |body| && chunks[k] == ChunkAt(body, maxChars, overlapChars, k)
      invariant |chunks| > 0 ==> Start(maxChars, overlapChars, |chunks| - 1) + maxChars < |body|
      decreases |chars| - charStart
    {
      var chunk, charEnd := CutChunk(body, chars, maxChars, overlapChars, |chunks|, charStart);
      chunks := chunks + [chunk];
      if charEnd == |chars| {
        break;
      }
      StartOfNext(maxChars, overlapChars, |chunks| - 1);
      charStart := charEnd - overlapChars;
    }
  }

  // ---------------------------------------------------------------------------------------------
  // Bytes.

  lemma {:induction false} Utf8OfJoin(a: string, b: string)
    ensures Utf8(a + b) == Utf8(a) + Utf8(b)
  {
    hide Encode;
    if b == "" {
      assert a + b == a;
    } else {
      var front := b[..|b| - 1];
      Utf8OfJoin(a, front);
      assert (a + b)[..|a + b| - 1] == a + front;
    }
  }

  function Tail(b: Byte): int { b as int - 0x80 }

  lemma {:induction false} Digits(n: nat)
    ensures n == n / 64 * 64 + n % 64
    ensures n / 64 == n / 4096 * 64 + n / 64 % 64
    ensures n / 4096 == n / 262144 * 64 + n / 4096 % 64
  {
  }

  // The first scalar value of some bytes, read by the length its first byte announces.
  function First(bytes: seq<Byte>): (int, nat)
    requires bytes != []
  {
    var b := bytes[0] as int;
    if b < 0x80 || |bytes| < 2 then (b, 1)
    else if b < 0xE0 || |bytes| < 3 then ((b - 0xC0) * 64 + Tail(bytes[1]), 2)
    else if b < 0xF0 || |bytes| < 4 then ((b - 0xE0) * 4096 + Tail(bytes[1]) * 64 + Tail(bytes[2]), 3)
    else ((b - 0xF0) * 262144 + Tail(bytes[1]) * 4096 + Tail(bytes[2]) * 64 + Tail(bytes[3]), 4)
  }

  lemma {:induction false} FirstIsEncoded(c: char, rest: seq<Byte>)
    ensures First(Encode(c) + rest) == (c as int, |Encode(c)|)
  {
    var bytes := Encode(c) + rest;
    Digits(c as int);
    assert forall i :: 0 <= i < |Encode(c)| ==> bytes[i] == Encode(c)[i];
  }

  /** Different texts have different bytes. */
  lemma {:induction false} Utf8IsInjective(a: string, b: string)
    requires Utf8(a) == Utf8(b)
    ensures a == b
  {
    hide Encode, First;
    if a != "" && b != "" {
      Utf8OfRest(a);
      Utf8OfRest(b);
      FirstIsEncoded(a[0], Utf8(a[1..]));
      FirstIsEncoded(b[0], Utf8(b[1..]));
      assert Utf8(a[1..]) == Utf8(a)[|Encode(a[0])|..];
      Utf8IsInjective(a[1..], b[1..]);
      assert a == [a[0]] + a[1..] && b == [b[0]] + b[1..];
    }
  }

  lemma {:induction false} Utf8OfRest(text: string)
    requires text != ""
    ensures Utf8(text) == Encode(text[0]) + Utf8(text[1..])
  {
    hide Encode;
    Utf8OfJoin(text[..1], text[1..]);
    assert text[..1] + text[1..] == text;
    assert Utf8(text[..1]) == Encode(text[0]);
  }

  // ---------------------------------------------------------------------------------------------
  // What a chunking promises.

  lemma {:induction false} StartGrows(maxChars: nat, overlapChars: nat, i: nat, j: nat)
    requires overlapChars < maxChars && i <= j
    ensures Start(maxChars, overlapChars, i) <= Start(maxChars, overlapChars, j)
    decreases j - i
  {
    hide Start;
    if i < j {
      StartGrows(maxChars, overlapChars, i, j - 1);
      StartOfNext(maxChars, overlapChars, j - 1);
    }
  }

  /** No chunk is empty or longer than the maximum, all but the last are full, and four characters make a token. */
  lemma {:induction false} ChunkSizes(body: string, maxChars: nat, overlapChars: nat, chunks: seq<BookChunk>, k: nat)
    requires overlapChars < maxChars && IsChunking(body, maxChars, overlapChars, chunks) && k < |chunks|
    ensures chunks[k].ordinal == k
    ensures 0 < |chunks[k].text| <= maxChars
    ensures k < |chunks| - 1 ==> |chunks[k].text| == maxChars
    ensures 4 * (chunks[k].tokenEstimate - 1) < |chunks[k].text| <= 4 * chunks[k].tokenEstimate
  {
    hide Start, Offset;
    if k < |chunks| - 1 {
      StartGrows(maxChars, overlapChars, k, |chunks| - 2);
    }
  }

  // The characters a chunk covers.
  lemma {:induction false} ChunkSpan(body: string, maxChars: nat, overlapChars: nat, chunks: seq<BookChunk>, k: nat)
    requires overlapChars < maxChars && IsChunking(body, maxChars, overlapChars, chunks) && k < |chunks|
    ensures var start := Start(maxChars, overlapChars, k);
      start + |chunks[k].text| <= |body| && chunks[k].text == body[start..start + |chunks[k].text|]
    ensures Start(maxChars, overlapChars, k) + |chunks[k].text| ==
      if k == |chunks| - 1 then |body| else Start(maxChars, overlapChars, k + 1) + overlapChars
  {
    hide Start, Offset;
    ChunkSizes(body, maxChars, overlapChars, chunks, k);
    StartOfNext(maxChars, overlapChars, k);
  }

  /** Neighbours share exactly `overlapChars` characters, and each brings at least one more. */
  lemma {:induction false} NeighboursOverlap(body: string, maxChars: nat, overlapChars: nat, chunks: seq<BookChunk>, k: nat)
    requires overlapChars < maxChars && IsChunking(body, maxChars, overlapChars, chunks) && k + 1 < |chunks|
    ensures |chunks[k].text| == maxChars && |chunks[k + 1].text| > overlapChars
    ensures chunks[k].text[maxChars - overlapChars..] == chunks[k + 1].text[..overlapChars]
    ensures Start(maxChars, overlapChars, k + 1) == Start(maxChars, overlapChars, k) + |chunks[k].text| - overlapChars
  {
    hide Start, Offset, ChunkAt, IsLast;
    ChunkSizes(body, maxChars, overlapChars, chunks, k);
    ChunkSpan(body, maxChars, overlapChars, chunks, k);
    ChunkSpan(body, maxChars, overlapChars, chunks, k + 1);
    NextIsLonger(body, maxChars, overlapChars, chunks, k);
  }

  lemma {:induction false} NextIsLonger(body: string, maxChars: nat, overlapChars: nat, chunks: seq<BookChunk>, k: nat)
    requires overlapChars < maxChars && IsChunking(body, maxChars, overlapChars, chunks) && k + 1 < |chunks|
    ensures |chunks[k + 1].text| > overlapChars
  {
    hide Start, Offset;
    StartGrows(maxChars, overlapChars, k, |chunks| - 2);
    StartOfNext(maxChars, overlapChars, k);
  }

  /** The offsets fall on character boundaries and cut the bytes of exactly this text out of the body. */
  lemma {:induction false} OffsetsSliceTheBody(body: string, maxChars: nat, overlapChars: nat, chunks: seq<BookChunk>, k: nat)
    requires overlapChars < maxChars && IsChunking(body, maxChars, overlapChars, chunks) && k < |chunks|
    ensures var start := Start(maxChars, overlapChars, k);
      && start + |chunks[k].text| <= |body|
      && chunks[k].sourceStart == Offset(body, start)
      && chunks[k].sourceEnd == Offset(body, start + |chunks[k].text|)
    ensures chunks[k].sourceStart <= chunks[k].sourceEnd <= |Utf8(body)|
    ensures Utf8(body)[chunks[k].sourceStart..chunks[k].sourceEnd] == Utf8(chunks[k].text)
    ensures forall other :: Utf8(other) == Utf8(body)[chunks[k].sourceStart..chunks[k].sourceEnd] ==> other == chunks[k].text
  {
    hide Start, Utf8;
    var start := Start(maxChars, overlapChars, k);
    ChunkSpan(body, maxChars, overlapChars, chunks, k);
    SliceOfBytes(body, start, start + |chunks[k].text|);
    forall other | Utf8(other) == Utf8(chunks[k].text) ensures other == chunks[k].text {
      Utf8IsInjective(other, chunks[k].text);
    }
  }

  lemma {:induction false} SliceOfBytes(body: string, start: nat, end: nat)
    requires start <= end <= |body|
    ensures Offset(body, start) <= Offset(body, end) <= |Utf8(body)|
    ensures Utf8(body)[Offset(body, start)..Offset(body, end)] == Utf8(body[start..end])
  {
    hide Utf8;
    Utf8OfJoin(body[..start], body[start..end]);
    Utf8OfJoin(body[..end], body[end..]);
    assert body[..start] + body[start..end] == body[..end];
    assert body[..end] + body[end..] == body;
  }

  // The first text, and what each later one adds to its overlap.
  function Rebuilt(chunks: seq<BookChunk>, overlapChars: nat): string {
    if chunks == [] then ""
    else
      var last := chunks[|chunks| - 1].text;
      Rebuilt(chunks[..|chunks| - 1], overlapChars) + if |chunks| == 1 then last else last[Min(overlapChars, |last|)..]
  }

  lemma {:induction false} RebuiltSoFar(body: string, maxChars: nat, overlapChars: nat, chunks: seq<BookChunk>, n: nat)
    requires overlapChars < maxChars && IsChunking(body, maxChars, overlapChars, chunks) && 0 < n <= |chunks|
    ensures Start(maxChars, overlapChars, n - 1) + |chunks[n - 1].text| <= |body|
    ensures Rebuilt(chunks[..n], overlapChars) == body[..Start(maxChars, overlapChars, n - 1) + |chunks[n - 1].text|]
  {
    hide Start, Offset, ChunkAt, IsLast, IsChunking;
    assert chunks[..n][..n - 1] == chunks[..n - 1];
    ChunkSpan(body, maxChars, overlapChars, chunks, n - 1);
    StartOfNext(maxChars, overlapChars, 0);
    if n > 1 {
      RebuiltSoFar(body, maxChars, overlapChars, chunks, n - 1);
      ChunkSpan(body, maxChars, overlapChars, chunks, n - 2);
      NeighboursOverlap(body, maxChars, overlapChars, chunks, n - 2);
    }
  }

  /** The first chunk followed by the later ones without their overlap is the text. */
  lemma {:induction false} RebuildsTheBody(body: string, maxChars: nat, overlapChars: nat, chunks: seq<BookChunk>)
    requires overlapChars < maxChars && IsChunking(body, maxChars, overlapChars, chunks)
    ensures Rebuilt(chunks, overlapChars) == body
  {
    hide Start, Offset, ChunkAt, IsLast;
    if chunks != [] {
      RebuiltSoFar(body, maxChars, overlapChars, chunks, |chunks|);
      ChunkSpan(body, maxChars, overlapChars, chunks, |chunks| - 1);
      assert chunks[..|chunks|] == chunks;
    }
  }

  /** A text has one chunking. */
  lemma {:induction false} ChunkingIsUnique(body: string, maxChars: nat, overlapChars: nat, a: seq<BookChunk>, b: seq<BookChunk>)
    requires overlapChars < maxChars
    requires IsChunking(body, maxChars, overlapChars, a) && IsChunking(body, maxChars, overlapChars, b)
    ensures a == b
  {
    hide Start, Offset, ChunkAt;
    if |a| < |b| {
      StartGrows(maxChars, overlapChars, |a| - 1, |b| - 2);
    } else if |b| < |a| {
      StartGrows(maxChars, overlapChars, |b| - 1, |a| - 2);
    }
  }
}

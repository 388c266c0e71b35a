/** Helpers of the Codex Telegram bridge: cutting text into message-sized
    chunks (with or without their positions), carrying formatting entities
    into a chunk, and reading the allowed chat ids from the configuration. */
module BridgeCommon {
  import opened Wrappers
  import Text
  import Json

  const DEFAULT_CHUNK_LEN: int := 3500

  /** The state of the loop of `chunk_text`: the chunks so far and the buffered lines, joined. */
  datatype Buffer = Buffer(out: seq<string>, buf: string)

  /** One line through the loop: a line over the limit flushes the buffer
      and is cut into slices; a line that does not fit flushes the buffer
      and starts a new one; any other line joins the buffer. */
  function ChunkLine(st: Buffer, line: string, limit: nat): Buffer
    requires limit >= 1
  {
    if |line| > limit then Buffer((if st.buf != [] then st.out + [st.buf] else st.out) + Text.Slices(line, limit), [])
    else if |st.buf| + |line| > limit then Buffer(st.out + [st.buf], line)
    else Buffer(st.out, st.buf + line)
  }

  function ChunkLines(st: Buffer, lines: seq<string>, limit: nat): Buffer
    requires limit >= 1
    decreases |lines|
  {
    if lines == [] then st else ChunkLines(ChunkLine(st, lines[0], limit), lines[1..], limit)
  }

  function CloseBuffer(st: Buffer): seq<string> {
    if st.buf != [] then st.out + [st.buf] else st.out
  }

  /** What `chunk_text` computes: the text whole when it fits, else its
      lines packed into chunks. */
  function ChunkText(text: string, limit: nat): seq<string>
    requires limit >= 1
  {
    if |text| <= limit then [text]
    else CloseBuffer(ChunkLines(Buffer([], []), Text.SplitLinesKeep(text), limit))
  }

  /** The chunks are non-empty and within the limit, and so is the buffer. */
  predicate Filled(st: Buffer, limit: nat) {
    (forall i :: 0 <= i < |st.out| ==> 0 < |st.out[i]| <= limit) && |st.buf| <= limit
  }

  lemma ChunkLineSound(st: Buffer, line: string, limit: nat)
    requires limit >= 1 && Filled(st, limit) && line != []
    ensures Filled(ChunkLine(st, line, limit), limit)
    ensures Text.Concat(CloseBuffer(ChunkLine(st, line, limit))) == Text.Concat(CloseBuffer(st)) + line
  {
    var flushed := if st.buf != [] then st.out + [st.buf] else st.out;
    assert Text.Concat(flushed) == Text.Concat(st.out) + st.buf by {
      Text.ConcatAppend(st.out, [st.buf]);
      assert Text.Concat([st.buf]) == st.buf;
    }
    assert Text.Concat(CloseBuffer(st)) == Text.Concat(st.out) + st.buf;
    var r := ChunkLine(st, line, limit);
    if |line| > limit {
      Text.ConcatAppend(flushed, Text.Slices(line, limit));
      assert r.buf == [] && CloseBuffer(r) == r.out;
    } else if |st.buf| + |line| > limit {
      Text.ConcatAppend(r.out, [r.buf]);
      assert Text.Concat([r.buf]) == r.buf;
      Text.ConcatAppend(st.out, [st.buf]);
      assert Text.Concat([st.buf]) == st.buf;
    } else {
      Text.ConcatAppend(r.out, [r.buf]);
      assert Text.Concat([r.buf]) == r.buf;
    }
  }

  lemma {:induction false} ChunkLinesSound(st: Buffer, lines: seq<string>, limit: nat)
    requires limit >= 1 && Filled(st, limit)
    requires forall i :: 0 <= i < |lines| ==> lines[i] != []
    ensures Filled(ChunkLines(st, lines, limit), limit)
    ensures Text.Concat(CloseBuffer(ChunkLines(st, lines, limit))) == Text.Concat(CloseBuffer(st)) + Text.Concat(lines)
    decreases |lines|
  {
    if lines != [] {
      ChunkLineSound(st, lines[0], limit);
      ChunkLinesSound(ChunkLine(st, lines[0], limit), lines[1..], limit);
    }
  }

  /** `chunk_text` keeps a text that fits whole; otherwise every chunk is
      non-empty and within the limit, and the chunks concatenate back to the text. */
  lemma ChunkTextSound(text: string, limit: nat)
    requires limit >= 1
    ensures |text| <= limit ==> ChunkText(text, limit) == [text]
    ensures Text.Concat(ChunkText(text, limit)) == text
    ensures |text| > limit ==> forall i :: 0 <= i < |ChunkText(text, limit)| ==> 0 < |ChunkText(text, limit)[i]| <= limit
  {
    if |text| <= limit {
      assert Text.Concat([text]) == text;
    } else {
      var fin := ChunkLines(Buffer([], []), Text.SplitLinesKeep(text), limit);
      assert Filled(fin, limit) && Text.Concat(CloseBuffer(fin)) == text by {
        PackedLines(text, limit);
      }
      CloseFilled(fin, limit);
    }
  }

  /** The lines of a text, packed from an empty buffer, fill chunks that concatenate back to it. */
  lemma PackedLines(text: string, limit: nat)
    requires limit >= 1
    ensures Filled(ChunkLines(Buffer([], []), Text.SplitLinesKeep(text), limit), limit)
    ensures Text.Concat(CloseBuffer(ChunkLines(Buffer([], []), Text.SplitLinesKeep(text), limit))) == text
  {
    var lines := Text.SplitLinesKeep(text);
    ChunkLinesSound(Buffer([], []), lines, limit);
    assert CloseBuffer(Buffer([], [])) == [];
  }

  /** Closing a filled buffer gives chunks that are non-empty and within the limit. */
  lemma CloseFilled(st: Buffer, limit: nat)
    requires Filled(st, limit)
    ensures forall i :: 0 <= i < |CloseBuffer(st)| ==> 0 < |CloseBuffer(st)[i]| <= limit
  {
  }

  /** `range(0, len(line), limit)`: the slices of a long line, appended to `out`. */
  method AppendSlices(out0: seq<string>, line: string, limit: nat) returns (out: seq<string>)
    requires limit >= 1
    ensures out == out0 + Text.Slices(line, limit)
  {
    out := out0;
    var i := 0;
    assert line[i..] == line;
    while i < |line|
      invariant i <= |line|
      invariant out + Text.Slices(line[i..], limit) == out0 + Text.Slices(line, limit)
      decreases |line| - i
    {
      var end := if i + limit < |line| then i + limit else |line|;
      Text.SlicesFrom(line, i, end, limit);
      Text.AppendOne(out, line[i..end], Text.Slices(line[end..], limit));
      out := out + [line[i..end]];
      i := end;
    }
    assert line[i..] == [];
  }

  lemma ChunkLinesAt(st: Buffer, lines: seq<string>, k: nat, limit: nat)
    requires limit >= 1 && k < |lines|
    ensures ChunkLines(st, lines[k..], limit) == ChunkLines(ChunkLine(st, lines[k], limit), lines[k + 1..], limit)
  {
    assert lines[k..][0] == lines[k] && lines[k..][1..] == lines[k + 1..];
  }

  /** The loops of `chunk_text`. */
  method ChunkTextLoop(text: string, limit: nat) returns (out: seq<string>)
    requires limit >= 1
    ensures out == ChunkText(text, limit)
  {
    if |text| <= limit {
      return [text];
    }
    var lines := Text.SplitLinesKeep(text);
    ghost var goal := ChunkLines(Buffer([], []), lines, limit);
    out := [];
    var buf: string := [];
    assert lines[0..] == lines;
    for k := 0 to |lines|
      invariant ChunkLines(Buffer(out, buf), lines[k..], limit) == goal
    {
      var line := lines[k];
      ChunkLinesAt(Buffer(out, buf), lines, k, limit);
      if |line| > limit {
        if buf != [] {
          out := out + [buf];
          buf := [];
        }
        out := AppendSlices(out, line, limit);
      } else if |buf| + |line| > limit {
        out := out + [buf];
        buf := line;
      } else {
        buf := buf + line;
      }
    }
    assert lines[|lines|..] == [];
    if buf != [] {
      out := out + [buf];
    }
  }

  /** A chunk and where it sits in the text: `text[start:end]`. */
  datatype IndexedChunk = IndexedChunk(chunk: string, start: int, end: int)

  /** The state of the loop of `_chunk_text_with_indices`. */
  datatype IndexedBuffer = IndexedBuffer(out: seq<IndexedChunk>, buf: string, bufStart: nat, pos: nat)

  /** The slices of a long line that starts at `base`, with their positions. */
  function IndexSlices(line: string, limit: nat, base: nat): (r: seq<IndexedChunk>)
    requires limit >= 1
    decreases |line|
  {
    if line == [] then []
    else
      var n := if limit < |line| then limit else |line|;
      [IndexedChunk(line[..n], base, base + n)] + IndexSlices(line[n..], limit, base + n)
  }

  function IndexLine(st: IndexedBuffer, line: string, limit: nat): IndexedBuffer
    requires limit >= 1
  {
    var lineStart := st.pos;
    var lineEnd := st.pos + |line|;
    if |line| > limit then
      var flushed := if st.buf != [] then st.out + [IndexedChunk(st.buf, st.bufStart, lineStart)] else st.out;
      IndexedBuffer(flushed + IndexSlices(line, limit, lineStart), [], lineEnd, lineEnd)
    else if |st.buf| + |line| > limit then
      IndexedBuffer(st.out + [IndexedChunk(st.buf, st.bufStart, lineStart)], line, lineStart, lineEnd)
    else
      IndexedBuffer(st.out, st.buf + line, if st.buf == [] then lineStart else st.bufStart, lineEnd)
  }

  function IndexLines(st: IndexedBuffer, lines: seq<string>, limit: nat): IndexedBuffer
    requires limit >= 1
    decreases |lines|
  {
    if lines == [] then st else IndexLines(IndexLine(st, lines[0], limit), lines[1..], limit)
  }

  function CloseIndexed(st: IndexedBuffer): seq<IndexedChunk> {
    if st.buf != [] then st.out + [IndexedChunk(st.buf, st.bufStart, st.pos)] else st.out
  }

  /** What `_chunk_text_with_indices` computes. */
  function ChunkTextWithIndices(text: string, limit: nat): seq<IndexedChunk>
    requires limit >= 1
  {
    if |text| <= limit then [IndexedChunk(text, 0, |text|)]
    else CloseIndexed(IndexLines(IndexedBuffer([], [], 0, 0), Text.SplitLinesKeep(text), limit))
  }

  lemma IndexSlicesFrom(line: string, i: nat, end: nat, limit: nat, base: nat)
    requires limit >= 1 && i < |line|
    requires end == if i + limit < |line| then i + limit else |line|
    ensures IndexSlices(line[i..], limit, base + i)
         == [IndexedChunk(line[i..end], base + i, base + end)] + IndexSlices(line[end..], limit, base + end)
  {
    var s := line[i..];
    assert s[..end - i] == line[i..end];
    assert s[end - i..] == line[end..];
  }

  /** The inner loop of `_chunk_text_with_indices`: the slices of a long line
      starting at `lineStart`, each with its position. */
  method AppendIndexSlices(out0: seq<IndexedChunk>, line: string, limit: nat, lineStart: nat) returns (out: seq<IndexedChunk>)
    requires limit >= 1
    ensures out == out0 + IndexSlices(line, limit, lineStart)
  {
    out := out0;
    var i := 0;
    assert line[i..] == line;
    while i < |line|
      invariant i <= |line|
      invariant out + IndexSlices(line[i..], limit, lineStart + i) == out0 + IndexSlices(line, limit, lineStart)
      decreases |line| - i
    {
      var end := if i + limit < |line| then i + limit else |line|;
      var part := line[i..end];
      IndexSlicesFrom(line, i, end, limit, lineStart);
      Text.AppendOne(out, IndexedChunk(part, lineStart + i, lineStart + i + |part|), IndexSlices(line[end..], limit, lineStart + end));
      out := out + [IndexedChunk(part, lineStart + i, lineStart + i + |part|)];
      i := end;
    }
    assert line[i..] == [];
  }

  lemma IndexLinesAt(st: IndexedBuffer, lines: seq<string>, k: nat, limit: nat)
    requires limit >= 1 && k < |lines|
    ensures IndexLines(st, lines[k..], limit) == IndexLines(IndexLine(st, lines[k], limit), lines[k + 1..], limit)
  {
    assert lines[k..][0] == lines[k] && lines[k..][1..] == lines[k + 1..];
  }

  /** The loop of `_chunk_text_with_indices`. */
  method ChunkTextWithIndicesLoop(text: string, limit: nat) returns (out: seq<IndexedChunk>)
    requires limit >= 1
    ensures out == ChunkTextWithIndices(text, limit)
  {
    if |text| <= limit {
      return [IndexedChunk(text, 0, |text|)];
    }
    var lines := Text.SplitLinesKeep(text);
    ghost var goal := IndexLines(IndexedBuffer([], [], 0, 0), lines, limit);
    out := [];
    var buf: string := [];
    var bufStart: nat := 0;
    var pos: nat := 0;
    assert lines[0..] == lines;
    for k := 0 to |lines|
      invariant IndexLines(IndexedBuffer(out, buf, bufStart, pos), lines[k..], limit) == goal
    {
      var line := lines[k];
      var lineStart := pos;
      var lineEnd := pos + |line|;
      IndexLinesAt(IndexedBuffer(out, buf, bufStart, pos), lines, k, limit);
      if |line| > limit {
        if buf != [] {
          out := out + [IndexedChunk(buf, bufStart, lineStart)];
          buf := [];
        }
        out := AppendIndexSlices(out, line, limit, lineStart);
        pos := lineEnd;
        bufStart := pos;
        continue;
      }
      if |buf| + |line| > limit {
        out := out + [IndexedChunk(buf, bufStart, lineStart)];
        buf := line;
        bufStart := lineStart;
      } else {
        if buf == [] {
          bufStart := lineStart;
        }
        buf := buf + line;
      }
      pos := lineEnd;
    }
    assert lines[|lines|..] == [];
    if buf != [] {
      out := out + [IndexedChunk(buf, bufStart, pos)];
    }
  }

  /** The chunk strings alone. */
  function Chunks(cs: seq<IndexedChunk>): (r: seq<string>)
    ensures |r| == |cs|
    ensures forall i :: 0 <= i < |cs| ==> r[i] == cs[i].chunk
  {
    if cs == [] then [] else [cs[0].chunk] + Chunks(cs[1..])
  }

  lemma ChunksAppend(a: seq<IndexedChunk>, b: seq<IndexedChunk>)
    ensures Chunks(a + b) == Chunks(a) + Chunks(b)
  {
  }

  /** Every chunk is the text between its positions. */
  predicate Located(cs: seq<IndexedChunk>, text: string) {
    forall i :: 0 <= i < |cs| ==> 0 <= cs[i].start <= cs[i].end <= |text| && cs[i].chunk == text[cs[i].start..cs[i].end]
  }

  lemma {:induction false} IndexSlicesChunks(line: string, limit: nat, base: nat)
    requires limit >= 1
    ensures Chunks(IndexSlices(line, limit, base)) == Text.Slices(line, limit)
    decreases |line|
  {
    if |line| == 0 {
      NoIndexSlices(line, limit, base);
    } else {
      var n := if limit < |line| then limit else |line|;
      var rest, next := line[n..], base + n;
      IndexSlicesChunks(rest, limit, next);
      IndexSlicesStep(line, limit, base, n, rest, next);
    }
  }

  lemma NoIndexSlices(line: string, limit: nat, base: nat)
    requires limit >= 1 && |line| == 0
    ensures Chunks(IndexSlices(line, limit, base)) == Text.Slices(line, limit)
  {
    Text.SlicesEmpty(line, limit);
  }

  lemma IndexSlicesStep(line: string, limit: nat, base: nat, n: nat, rest: string, next: nat)
    requires limit >= 1 && 0 < |line| && n == (if limit < |line| then limit else |line|)
    requires rest == line[n..] && next == base + n
    requires Chunks(IndexSlices(rest, limit, next)) == Text.Slices(rest, limit)
    ensures Chunks(IndexSlices(line, limit, base)) == Text.Slices(line, limit)
  {
    IndexSlicesCons(line, limit, base, n, rest, next);
    SlicesCons(line, limit, n, rest);
  }

  lemma IndexSlicesCons(line: string, limit: nat, base: nat, n: nat, rest: string, next: nat)
    requires limit >= 1 && 0 < |line| && n == (if limit < |line| then limit else |line|)
    requires rest == line[n..] && next == base + n
    ensures Chunks(IndexSlices(line, limit, base)) == [line[..n]] + Chunks(IndexSlices(rest, limit, next))
  {
    var tail := IndexSlices(rest, limit, next);
    assert IndexSlices(line, limit, base) == [IndexedChunk(line[..n], base, next)] + tail;
    ChunksAppend([IndexedChunk(line[..n], base, next)], tail);
  }

  lemma SlicesCons(line: string, limit: nat, n: nat, rest: string)
    requires limit >= 1 && 0 < |line| && n == (if limit < |line| then limit else |line|)
    requires rest == line[n..]
    ensures Text.Slices(line, limit) == [line[..n]] + Text.Slices(rest, limit)
  {
    if |line| <= limit {
      assert line[..n] == line;
      Text.SlicesShort(line, limit);
      Text.SlicesEmpty(rest, limit);
    } else {
      Text.SlicesLong(line, limit);
    }
  }

  lemma {:induction false} IndexSlicesLocated(line: string, limit: nat, base: nat, text: string)
    requires limit >= 1 && base + |line| <= |text| && text[base..base + |line|] == line
    ensures Located(IndexSlices(line, limit, base), text)
    decreases |line|
  {
    if line != [] {
      var n := if limit < |line| then limit else |line|;
      var head := IndexedChunk(line[..n], base, base + n);
      var tail := IndexSlices(line[n..], limit, base + n);
      assert text[base + n..base + n + |line[n..]|] == line[n..] by {
        assert text[base + n..base + |line|] == text[base..base + |line|][n..];
      }
      IndexSlicesLocated(line[n..], limit, base + n, text);
      assert head.chunk == text[base..base + n] by {
        assert text[base..base + n] == text[base..base + |line|][..n];
      }
      var r := [head] + tail;
      forall i | 0 <= i < |r|
        ensures 0 <= r[i].start <= r[i].end <= |text| && r[i].chunk == text[r[i].start..r[i].end]
      {
        if i > 0 { assert r[i] == tail[i - 1]; }
      }
    }
  }

  /** The indexed loop state follows the plain one, and its buffer is the
      text between `bufStart` and `pos`. */
  predicate Tracks(st: Buffer, ist: IndexedBuffer, text: string) {
    Chunks(ist.out) == st.out && ist.buf == st.buf
    && Located(ist.out, text) && ist.bufStart <= ist.pos <= |text| && ist.buf == text[ist.bufStart..ist.pos]
  }

  lemma LocatedAppend(a: seq<IndexedChunk>, b: seq<IndexedChunk>, text: string)
    requires Located(a, text) && Located(b, text)
    ensures Located(a + b, text)
  {
    var r := a + b;
    forall i | 0 <= i < |r|
      ensures 0 <= r[i].start <= r[i].end <= |text| && r[i].chunk == text[r[i].start..r[i].end]
    {
      if i >= |a| { assert r[i] == b[i - |a|]; }
    }
  }

  /** Flushing the buffer keeps the indexed state in step. */
  lemma FlushTracks(st: Buffer, ist: IndexedBuffer, text: string)
    requires Tracks(st, ist, text)
    ensures Chunks(ist.out + [IndexedChunk(ist.buf, ist.bufStart, ist.pos)]) == st.out + [st.buf]
    ensures Located(ist.out + [IndexedChunk(ist.buf, ist.bufStart, ist.pos)], text)
  {
    ChunksAppend(ist.out, [IndexedChunk(ist.buf, ist.bufStart, ist.pos)]);
    LocatedAppend(ist.out, [IndexedChunk(ist.buf, ist.bufStart, ist.pos)], text);
  }

  lemma IndexLongLine(st: Buffer, ist: IndexedBuffer, line: string, limit: nat, text: string)
    requires limit >= 1 && Tracks(st, ist, text) && |line| > limit
    requires ist.pos + |line| <= |text| && text[ist.pos..ist.pos + |line|] == line
    ensures Tracks(ChunkLine(st, line, limit), IndexLine(ist, line, limit), text)
  {
    var slices := IndexSlices(line, limit, ist.pos);
    ClosedTracks(st, ist, text);
    SlicesTracked(line, limit, ist.pos, text);
    AppendTracked(CloseIndexed(ist), slices, CloseBuffer(st), Text.Slices(line, limit), text);
    LongLineShape(st, ist, line, limit);
    TracksFlushed(CloseIndexed(ist) + slices, CloseBuffer(st) + Text.Slices(line, limit), ist.pos + |line|, text);
  }

  /** A line over the limit flushes the buffer and is cut into slices, in both loops. */
  lemma LongLineShape(st: Buffer, ist: IndexedBuffer, line: string, limit: nat)
    requires limit >= 1 && |line| > limit && ist.buf == st.buf
    ensures IndexLine(ist, line, limit)
         == IndexedBuffer(CloseIndexed(ist) + IndexSlices(line, limit, ist.pos), [], ist.pos + |line|, ist.pos + |line|)
    ensures ChunkLine(st, line, limit) == Buffer(CloseBuffer(st) + Text.Slices(line, limit), [])
  {
    var slices := IndexSlices(line, limit, ist.pos);
    var plain := Text.Slices(line, limit);
    if ist.buf != [] {
      assert CloseIndexed(ist) == ist.out + [IndexedChunk(ist.buf, ist.bufStart, ist.pos)];
      assert CloseBuffer(st) == st.out + [st.buf];
    } else {
      assert CloseIndexed(ist) == ist.out;
      assert CloseBuffer(st) == st.out;
    }
  }

  /** The slices of a line lying in the text at `pos` are the plain slices, each where it lies. */
  lemma SlicesTracked(line: string, limit: nat, pos: nat, text: string)
    requires limit >= 1 && pos + |line| <= |text| && text[pos..pos + |line|] == line
    ensures Chunks(IndexSlices(line, limit, pos)) == Text.Slices(line, limit)
    ensures Located(IndexSlices(line, limit, pos), text)
  {
    IndexSlicesChunks(line, limit, pos);
    IndexSlicesLocated(line, limit, pos, text);
  }

  /** Tracking is kept by appending. */
  lemma AppendTracked(a: seq<IndexedChunk>, b: seq<IndexedChunk>, pa: seq<string>, pb: seq<string>, text: string)
    requires Chunks(a) == pa && Chunks(b) == pb && Located(a, text) && Located(b, text)
    ensures Chunks(a + b) == pa + pb && Located(a + b, text)
  {
    ChunksAppend(a, b);
    LocatedAppend(a, b, text);
  }

  /** Chunks in step and an empty buffer at a position in the text track each other. */
  lemma TracksFlushed(out: seq<IndexedChunk>, plain: seq<string>, pos: nat, text: string)
    requires Chunks(out) == plain && Located(out, text) && pos <= |text|
    ensures Tracks(Buffer(plain, []), IndexedBuffer(out, [], pos, pos), text)
  {
    assert text[pos..pos] == [];
  }

  lemma IndexLineSound(st: Buffer, ist: IndexedBuffer, line: string, limit: nat, text: string)
    requires limit >= 1 && Tracks(st, ist, text)
    requires ist.pos + |line| <= |text| && text[ist.pos..ist.pos + |line|] == line
    ensures Tracks(ChunkLine(st, line, limit), IndexLine(ist, line, limit), text)
    ensures IndexLine(ist, line, limit).pos == ist.pos + |line|
  {
    var lineStart := ist.pos;
    var lineEnd := ist.pos + |line|;
    if |line| > limit {
      IndexLongLine(st, ist, line, limit, text);
    } else if |st.buf| + |line| > limit {
      FlushTracks(st, ist, text);
    } else if ist.buf == [] {
      assert text[lineStart..lineEnd] == line;
    } else {
      assert text[ist.bufStart..lineEnd] == text[ist.bufStart..lineStart] + text[lineStart..lineEnd];
    }
  }

  lemma {:induction false} IndexLinesSound(st: Buffer, ist: IndexedBuffer, lines: seq<string>, limit: nat, text: string)
    requires limit >= 1 && Tracks(st, ist, text)
    requires ist.pos + |Text.Concat(lines)| == |text| && text[ist.pos..] == Text.Concat(lines)
    ensures Tracks(ChunkLines(st, lines, limit), IndexLines(ist, lines, limit), text)
    ensures IndexLines(ist, lines, limit).pos == |text|
    decreases |lines|
  {
    if lines != [] {
      var line := lines[0];
      var rest := Text.Concat(lines[1..]);
      assert Text.Concat(lines) == line + rest;
      assert text[ist.pos..ist.pos + |line|] == line;
      IndexLineSound(st, ist, line, limit, text);
      var ist1 := IndexLine(ist, line, limit);
      assert text[ist1.pos..] == rest;
      IndexLinesSound(ChunkLine(st, line, limit), ist1, lines[1..], limit, text);
    }
  }

  /** `_chunk_text_with_indices` cuts the text exactly as `chunk_text` does,
      and each chunk is `text[start:end]`. */
  lemma ChunkIndicesAgree(text: string, limit: nat)
    requires limit >= 1
    ensures Chunks(ChunkTextWithIndices(text, limit)) == ChunkText(text, limit)
    ensures Located(ChunkTextWithIndices(text, limit), text)
  {
    if |text| <= limit {
      assert text[0..|text|] == text;
    } else {
      var lines := Text.SplitLinesKeep(text);
      assert Tracks(Buffer([], []), IndexedBuffer([], [], 0, 0), text) by {
        assert text[0..0] == [];
      }
      assert text[0..] == text;
      IndexLinesSound(Buffer([], []), IndexedBuffer([], [], 0, 0), lines, limit, text);
      ClosedTracks(ChunkLines(Buffer([], []), lines, limit), IndexLines(IndexedBuffer([], [], 0, 0), lines, limit), text);
    }
  }

  /** Closing the two buffers in step gives the same chunks, each where it lies in the text. */
  lemma ClosedTracks(st: Buffer, ist: IndexedBuffer, text: string)
    requires Tracks(st, ist, text)
    ensures Chunks(CloseIndexed(ist)) == CloseBuffer(st)
    ensures Located(CloseIndexed(ist), text)
  {
    if ist.buf != [] {
      var last := IndexedChunk(ist.buf, ist.bufStart, ist.pos);
      ChunksAppend(ist.out, [last]);
      LocatedAppend(ist.out, [last], text);
    }
  }

  /** `int(x)` on an entity's offset or length: `None` where Python raises
      `TypeError` or `ValueError`. */
  function IntOf(v: Json.Value): Option<int> {
    match v
    case Int(i) => Some(i)
    case Bool(b) => Some(if b then 1 else 0)
    case Str(s) => Text.ParseInt(Text.Strip(s))
    case _ => None
  }

  /** `int(ent.get(key, 0))`. */
  function EntityInt(ent: Json.Fields, key: string): Option<int> {
    match Json.Lookup(ent, key)
    case None => Some(0)
    case Some(v) => IntOf(v)
  }

  /** The integer stored under `key`, when an integer is stored there. */
  function IntField(f: Json.Fields, key: string): Option<int> {
    match Json.Lookup(f, key)
    case Some(Int(i)) => Some(i)
    case _ => None
  }

  /** Whether an entity with a readable offset and length overlaps the chunk `[start, end)`. */
  predicate Overlaps(ent: Json.Fields, start: int, end: int) {
    EntityInt(ent, "offset").Some? && EntityInt(ent, "length").Some?
    && var s := EntityInt(ent, "offset").value; var l := EntityInt(ent, "length").value;
    l > 0 && s < end && start < s + l && start < end
  }

  /** The entity rebased into a chunk of the given width. */
  predicate Rebased(e: Json.Fields, width: int) {
    IntField(e, "offset").Some? && IntField(e, "length").Some?
    && 0 <= IntField(e, "offset").value && 0 < IntField(e, "length").value
    && IntField(e, "offset").value + IntField(e, "length").value <= width
  }

  /** One entity through `_slice_entities`: kept, clipped to the chunk and
      rebased to it exactly when it overlaps the chunk; its other keys are
      copied unchanged. */
  function SliceEntity(ent: Json.Fields, start: int, end: int): (r: Option<Json.Fields>)
    ensures r.Some? <==> Overlaps(ent, start, end)
    ensures r.Some? ==> Rebased(r.value, end - start)
    ensures r.Some? ==> forall k :: k != "offset" && k != "length" ==> Json.Lookup(r.value, k) == Json.Lookup(ent, k)
  {
    var entStart :- EntityInt(ent, "offset");
    var entLen :- EntityInt(ent, "length");
    if entLen <= 0 then None
    else
      var entEnd := entStart + entLen;
      if entEnd <= start || entStart >= end then None
      else
        var newStart := if entStart > start then entStart else start;
        var newEnd := if entEnd < end then entEnd else end;
        var newLen := newEnd - newStart;
        if newLen <= 0 then None
        else Some(Json.Put(Json.Put(ent, "offset", Json.Int(newStart - start)), "length", Json.Int(newLen)))
  }

  /** A kept entity covers, relative to the chunk, exactly the positions it
      covered in the whole text that lie inside the chunk. */
  lemma SliceEntitySpan(ent: Json.Fields, start: int, end: int, p: int)
    requires SliceEntity(ent, start, end).Some?
    ensures var e := SliceEntity(ent, start, end).value;
            var o := IntField(e, "offset").value; var l := IntField(e, "length").value;
            var s := EntityInt(ent, "offset").value; var n := EntityInt(ent, "length").value;
            start + o <= p < start + o + l <==> s <= p < s + n && start <= p < end
  {
  }

  /** `_slice_entities`: the entities that overlap the chunk, in order, each clipped and rebased. */
  function SliceEntities(entities: seq<Json.Fields>, start: int, end: int): (r: seq<Json.Fields>)
    ensures |r| <= |entities|
    ensures forall i :: 0 <= i < |r| ==> Rebased(r[i], end - start)
    ensures (forall i :: 0 <= i < |entities| ==> Overlaps(entities[i], start, end)) ==> |r| == |entities|
    ensures (forall i :: 0 <= i < |entities| ==> !Overlaps(entities[i], start, end)) ==> r == []
    decreases |entities|
  {
    if entities == [] then []
    else
      var last := entities[|entities| - 1];
      var kept := SliceEntities(entities[..|entities| - 1], start, end);
      match SliceEntity(last, start, end)
      case Some(e) => kept + [e]
      case None => kept
  }

  /** The loop of `_slice_entities`. */
  method SliceEntitiesLoop(entities: seq<Json.Fields>, start: int, end: int) returns (out: seq<Json.Fields>)
    ensures out == SliceEntities(entities, start, end)
  {
    out := [];
    for k := 0 to |entities|
      invariant out == SliceEntities(entities[..k], start, end)
    {
      SliceEntitiesSnoc(entities, k, start, end);
      var sliced := SliceEntity(entities[k], start, end);
      if sliced.Some? {
        out := out + [sliced.value];
      }
    }
    assert entities[..|entities|] == entities;
  }

  /** One more entity adds its slice, if it has one. */
  lemma SliceEntitiesSnoc(entities: seq<Json.Fields>, k: nat, start: int, end: int)
    requires k < |entities|
    ensures SliceEntities(entities[..k + 1], start, end)
         == SliceEntities(entities[..k], start, end)
            + (match SliceEntity(entities[k], start, end) case Some(e) => [e] case None => [])
  {
    assert entities[..k + 1][..k] == entities[..k];
  }

  /** `int(part)` on a comma-separated part; Python strips the whitespace around it. */
  function IdOf(part: string): Result<int> {
    match Text.ParseInt(Text.Strip(part))
    case Some(i) => Ok(i)
    case None => Err("invalid literal for int() with base 10: '" + part + "'")
  }

  /** One comma-separated part: blank parts are skipped. */
  function PartId(part: string): Result<Option<int>> {
    if Text.Strip(part) == [] then Ok(None)
    else
      var id :- IdOf(part);
      Ok(Some(id))
  }

  /** The set of ids of a sequence of elements, each read by `id`: an element
      read as `None` is skipped and the first element that raises, raises. */
  function CollectIds<T>(xs: seq<T>, id: T -> Result<Option<int>>): (r: Result<set<int>>)
    ensures r.Ok? <==> forall i :: 0 <= i < |xs| ==> id(xs[i]).Ok?
    ensures r.Ok? ==> forall x :: x in r.value <==> exists i :: 0 <= i < |xs| && id(xs[i]) == Ok(Some(x))
    decreases |xs|
  {
    if xs == [] then Ok({})
    else
      var init := xs[..|xs| - 1];
      var ids :- CollectIds(init, id);
      assert forall i :: 0 <= i < |init| ==> init[i] == xs[i];
      var last :- id(xs[|xs| - 1]);
      if last.Some? then Ok(ids + {last.value}) else Ok(ids)
  }

  /** The first error among a prefix is the error of the whole. */
  lemma {:induction false} CollectIdsPrefixErr<T>(xs: seq<T>, k: nat, id: T -> Result<Option<int>>)
    requires k <= |xs| && CollectIds(xs[..k], id).Err?
    ensures CollectIds(xs, id) == CollectIds(xs[..k], id)
    decreases |xs| - k
  {
    if k < |xs| {
      assert xs[..k + 1][..k] == xs[..k];
      CollectIdsPrefixErr(xs, k + 1, id);
    } else {
      assert xs[..k] == xs;
    }
  }

  /** The loops of `parse_allowed_chat_ids` and `parse_chat_id_list`. */
  method CollectIdsLoop<T>(xs: seq<T>, id: T -> Result<Option<int>>) returns (r: Result<set<int>>)
    ensures r == CollectIds(xs, id)
  {
    var out: set<int> := {};
    for k := 0 to |xs|
      invariant CollectIds(xs[..k], id) == Ok(out)
    {
      assert xs[..k + 1][..k] == xs[..k];
      var next := id(xs[k]);
      if next.Err? {
        CollectIdsPrefixErr(xs, k + 1, id);
        return Err(next.error);
      }
      if next.value.Some? {
        out := out + {next.value.value};
      }
    }
    assert xs[..|xs|] == xs;
    return Ok(out);
  }

  /** `parse_allowed_chat_ids`: `None` for a blank value, else the set of
      the comma-separated ids (empty when every part is blank). */
  function ParseAllowedChatIds(value: string): (r: Result<Option<set<int>>>)
    ensures r == Ok(None) <==> Text.AllSpace(value)
    ensures !Text.AllSpace(value) ==> r == (var ids :- CollectIds(Text.Split(Text.Strip(value), ','), PartId); Ok(Some(ids)))
  {
    var v := Text.Strip(value);
    if v == [] then Ok(None)
    else
      var ids :- CollectIds(Text.Split(v, ','), PartId);
      Ok(Some(ids))
  }

  /** The decimal forms of the ids. */
  function IdStrings(ids: seq<int>): (r: seq<string>)
    ensures |r| == |ids|
    ensures forall i :: 0 <= i < |ids| ==> r[i] == Text.IntToString(ids[i])
  {
    if ids == [] then [] else [Text.IntToString(ids[0])] + IdStrings(ids[1..])
  }

  /** A decimal form is made of digits and a leading minus, and ends with a digit. */
  lemma IntToStringChars(i: int)
    ensures var t := Text.IntToString(i); ',' !in t && !Text.IsSpace(t[0]) && !Text.IsSpace(t[|t| - 1])
  {
    var t := Text.IntToString(i);
    if i < 0 {
      assert t == "-" + Text.NatToString(-i);
      assert forall k :: 1 <= k < |t| ==> t[k] == Text.NatToString(-i)[k - 1];
    }
  }

  /** The joined decimal forms need no stripping, split back into the
      forms, and each form reads back as its id. */
  lemma JoinedIds(ids: seq<int>)
    requires ids != []
    ensures var joined := Text.Join(IdStrings(ids), ",");
            !Text.AllSpace(joined) && Text.Strip(joined) == joined && Text.Split(joined, ',') == IdStrings(ids)
    ensures forall i :: 0 <= i < |ids| ==> PartId(IdStrings(ids)[i]) == Ok(Some(ids[i]))
  {
    var parts := IdStrings(ids);
    var joined := Text.Join(parts, ",");
    forall i | 0 <= i < |parts|
      ensures ',' !in parts[i]
      ensures PartId(parts[i]) == Ok(Some(ids[i]))
    {
      PartIdOfInt(ids[i]);
    }
    Text.JoinFirst(parts, ",");
    Text.JoinLast(parts, ",");
    var lastPart := parts[|parts| - 1];
    assert joined[|joined| - 1] == lastPart[|lastPart| - 1] by {
      assert joined[|joined| - |lastPart|..] == lastPart;
    }
    IntToStringChars(ids[0]);
    IntToStringChars(ids[|ids| - 1]);
    Text.StripTight(joined);
    Text.SplitJoin(parts, ',');
  }

  /** The decimal form of an id holds no comma and reads back as the id. */
  lemma PartIdOfInt(i: int)
    ensures ',' !in Text.IntToString(i)
    ensures PartId(Text.IntToString(i)) == Ok(Some(i))
  {
    IntToStringChars(i);
    Text.StripTight(Text.IntToString(i));
    Text.ParseIntRoundTrip(i);
  }

  /** Parts that each read as an id collect into the set of those ids. */
  lemma CollectAllIds(parts: seq<string>, ids: seq<int>)
    requires |parts| == |ids|
    requires forall i :: 0 <= i < |ids| ==> PartId(parts[i]) == Ok(Some(ids[i]))
    ensures CollectIds(parts, PartId) == Ok(set i | 0 <= i < |ids| :: ids[i])
  {
    var want := set i | 0 <= i < |ids| :: ids[i];
    var got := CollectIds(parts, PartId);
    assert got.Ok?;
    forall x
      ensures x in got.value <==> x in want
    {
      if x in want {
        var i :| 0 <= i < |ids| && ids[i] == x;
        assert PartId(parts[i]) == Ok(Some(x));
      }
    }
    assert got.value == want;
  }

  /** Writing ids out as `"1,-2,3"` and parsing them back gives the set of those ids. */
  lemma AllowedChatIdsRoundTrip(ids: seq<int>)
    requires ids != []
    ensures ParseAllowedChatIds(Text.Join(IdStrings(ids), ",")) == Ok(Some(set i | 0 <= i < |ids| :: ids[i]))
  {
    JoinedIds(ids);
    CollectAllIds(IdStrings(ids), ids);
  }

  /** `int(item)` on one element of a list of chat ids: `None` for a `None`
      or blank element, which is skipped. */
  function ItemId(item: Json.Value): Result<Option<int>> {
    match item
    case Null => Ok(None)
    case Str(s) =>
      if Text.AllSpace(s) then Ok(None)
      else
        var id :- IdOf(s);
        Ok(Some(id))
    case Int(i) => Ok(Some(i))
    case Bool(b) => Ok(Some(if b then 1 else 0))
    case _ => Err("int() argument must be a string, a bytes-like object or a real number")
  }

  /** `parse_chat_id_list`: a string is parsed as a comma-separated list, an
      integer is a single id, a list gives its elements' ids (`None` when it
      gives none), and anything else is `None`. */
  function ParseChatIdList(value: Option<Json.Value>): (r: Result<Option<set<int>>>)
    ensures value.None? || value == Some(Json.Null) ==> r == Ok(None)
    ensures value.Some? && value.value.Str? ==> r == ParseAllowedChatIds(value.value.s)
    ensures value.Some? && value.value.Int? ==> r == Ok(Some({value.value.i}))
    ensures value.Some? && value.value.Arr? && r.Ok? ==>
      forall x :: (r.value.Some? && x in r.value.value) <==> exists i :: 0 <= i < |value.value.items| && ItemId(value.value.items[i]) == Ok(Some(x))
    ensures value.Some? && value.value.Arr? ==> (r.Ok? <==> forall i :: 0 <= i < |value.value.items| ==> ItemId(value.value.items[i]).Ok?)
    ensures r.Ok? && r.value.Some? && !(value.Some? && value.value.Str?) ==> r.value.value != {}
    ensures value.Some? && (value.value.Obj? || value.value.Float? || value.value.PathV? || value.value.Other?) ==> r == Ok(None)
  {
    match value
    case None => Ok(None)
    case Some(v) =>
      match v
      case Str(s) => ParseAllowedChatIds(s)
      case Int(i) => Ok(Some({i}))
      case Bool(b) => Ok(Some({if b then 1 else 0}))
      case Arr(items) =>
        var ids :- CollectIds(items, ItemId);
        if ids == {} then Ok(None) else Ok(Some(ids))
      case _ => Ok(None)
  }

  /** `config_get`: a top-level key wins; otherwise the key is looked up in
      the nested `telegram` table. */
  function ConfigGet(config: Json.Fields, key: string): (r: Option<Json.Value>)
    ensures Json.HasKey(config, key) ==> r == Json.Lookup(config, key)
    ensures !Json.HasKey(config, key) && r.Some? ==>
      Json.Lookup(config, "telegram").Some? && Json.Lookup(config, "telegram").value.Obj?
      && r == Json.Lookup(Json.Lookup(config, "telegram").value.fields, key)
    ensures r.None? <==> !Json.HasKey(config, key) && !(exists f :: Json.Lookup(config, "telegram") == Some(Json.Obj(f)) && Json.HasKey(f, key))
  {
    if Json.HasKey(config, key) then Json.Lookup(config, key)
    else
      match Json.Lookup(config, "telegram")
      case Some(Obj(nested)) => Json.Lookup(nested, key)
      case _ => None
  }

  /** `resolve_chat_ids`: `chat_id`, then `allowed_chat_ids`, then
      `startup_chat_ids`; the first that gives ids wins. */
  function ResolveChatIds(config: Json.Fields): (r: Result<Option<set<int>>>)
    ensures ParseChatIdList(ConfigGet(config, "chat_id")).Ok? && ParseChatIdList(ConfigGet(config, "chat_id")).value.Some? ==>
      r == ParseChatIdList(ConfigGet(config, "chat_id"))
    ensures ParseChatIdList(ConfigGet(config, "chat_id")) == Ok(None) ==>
              (ParseChatIdList(ConfigGet(config, "allowed_chat_ids")).Ok? && ParseChatIdList(ConfigGet(config, "allowed_chat_ids")).value.Some? ==>
                 r == ParseChatIdList(ConfigGet(config, "allowed_chat_ids")))
    ensures ParseChatIdList(ConfigGet(config, "chat_id")) == Ok(None) && ParseChatIdList(ConfigGet(config, "allowed_chat_ids")) == Ok(None) ==>
      r == ParseChatIdList(ConfigGet(config, "startup_chat_ids"))
    ensures ParseChatIdList(ConfigGet(config, "chat_id")).Err? ==> r.Err?
  {
    var chatIds :- ParseChatIdList(ConfigGet(config, "chat_id"));
    if chatIds.Some? then Ok(chatIds)
    else
      var allowed :- ParseChatIdList(ConfigGet(config, "allowed_chat_ids"));
      if allowed.Some? then Ok(allowed)
      else ParseChatIdList(ConfigGet(config, "startup_chat_ids"))
  }

  /** A top-level integer `chat_id` decides, whatever the nested table says. */
  lemma TopLevelChatIdWins(config: Json.Fields, id: int)
    requires Json.Lookup(config, "chat_id") == Some(Json.Int(id))
    ensures ResolveChatIds(config) == Ok(Some({id}))
  {
  }
}

/** Cutting a long Markdown body into chat-sized chunks: lines into
    slices, blocks into pieces, and the body into chunks that close an open
    code fence at a cut and reopen it in the next chunk. */
module Render {
  import opened Wrappers
  import Text

  const MAX_BODY_CHARS: int := 3500

  /** `_split_line_ending`: the line without its ending, and the ending (`\r\n`, `\n`, `\r` or nothing). */
  function SplitLineEnding(line: string): (r: (string, string))
    ensures r.0 + r.1 == line
    ensures r.1 == [] || r.1 == "\n" || r.1 == "\r" || r.1 == "\r\n"
    ensures r.1 == [] ==> line == [] || (line[|line| - 1] != '\n' && line[|line| - 1] != '\r')
  {
    if Text.EndsWith(line, "\r\n") then (line[..|line| - 2], "\r\n")
    else if Text.EndsWith(line, "\n") then (line[..|line| - 1], "\n")
    else if Text.EndsWith(line, "\r") then (line[..|line| - 1], "\r")
    else
      assert line != [] ==> line[|line| - 1..] == [line[|line| - 1]];
      (line, [])
  }

  /** The slices of `content` from `idx` on, the last one carrying `ending`:
      every slice but the last has exactly `maxChars` characters, and the last
      one can be longer than `maxChars` by the length of the ending. */
  function ContentSlices(content: string, idx: nat, ending: string, maxChars: nat): (r: seq<string>)
    requires maxChars >= 1 && idx < |content|
    ensures Text.Concat(r) == content[idx..] + ending
    ensures r != [] && forall i :: 0 <= i < |r| ==> 0 < |r[i]| <= maxChars + |ending|
    decreases |content| - idx
  {
    if idx + maxChars >= |content| then [content[idx..] + ending]
    else
      assert content[idx..] == content[idx..idx + maxChars] + content[idx + maxChars..];
      [content[idx..idx + maxChars]] + ContentSlices(content, idx + maxChars, ending, maxChars)
  }

  /** `_split_long_line`: a short line is kept whole; the content of a long
      one (the line without its ending) is cut every `maxChars` characters
      and the ending is added to the last slice, which can then be up to two
      characters over the limit. A line without an ending is cut within the
      limit. */
  function SplitLongLineAsWritten(line: string, maxChars: nat): (r: seq<string>)
    requires maxChars >= 1
    ensures Text.Concat(r) == line
    ensures |line| <= maxChars ==> r == [line]
    ensures forall i :: 0 <= i < |r| ==> |r[i]| <= maxChars + 2
    ensures SplitLineEnding(line).1 == [] ==> forall i :: 0 <= i < |r| ==> |r[i]| <= maxChars
  {
    if |line| <= maxChars then [line]
    else
      var (content, ending) := SplitLineEnding(line);
      if content == [] then (if ending != [] then [ending] else [])
      else ContentSlices(content, 0, ending, maxChars)
  }

  /** With a limit of 3, the line `abc\n` comes back as one part of 4 characters. */
  lemma SplitLongLineOverflows()
    ensures SplitLongLineAsWritten("abc\n", 3) == ["abc\n"]
    ensures |SplitLongLineAsWritten("abc\n", 3)[0]| > 3
  {
    var line := "abc\n";
    assert line[|line| - 2..] == "c\n" && "c\n"[0] != "\r\n"[0];
    assert !Text.EndsWith(line, "\r\n");
    assert line[|line| - 1..] == "\n" && line[..|line| - 1] == "abc";
    assert SplitLineEnding(line) == ("abc", "\n");
  }

  /** `_split_long_line` as intended: parts of at most `maxChars` characters
      that concatenate back to the line; a short line is kept whole, and the
      line ending stays at the end of the last part. */
  function SplitLongLineIntended(line: string, maxChars: nat): (r: seq<string>)
    requires maxChars >= 1
    ensures Text.Concat(r) == line
    ensures forall i :: 0 <= i < |r| ==> |r[i]| <= maxChars
    ensures |line| <= maxChars ==> r == [line]
    ensures line != [] ==> r != [] && r[|r| - 1] != [] && r[|r| - 1][|r[|r| - 1]| - 1] == line[|line| - 1]
  {
    if |line| <= maxChars then [line] else Text.Slices(line, maxChars)
  }

  /** The slices of `content` from `idx` on, none once `idx` is past the end. */
  function SlicesAfter(content: string, idx: nat, ending: string, maxChars: nat): seq<string>
    requires maxChars >= 1
  {
    if idx < |content| then ContentSlices(content, idx, ending, maxChars) else []
  }

  /** One slice off the front of the content from `idx` on. */
  lemma SlicesAfterStep(content: string, idx: nat, ending: string, maxChars: nat, chunk: string)
    requires maxChars >= 1 && idx < |content|
    requires chunk == if idx + maxChars >= |content| then content[idx..] + ending else content[idx..idx + maxChars]
    ensures SlicesAfter(content, idx, ending, maxChars) == [chunk] + SlicesAfter(content, idx + maxChars, ending, maxChars)
  {
  }

  /** The slicing loop of `_split_long_line` over the content of a long line. */
  method SliceContent(content: string, ending: string, maxChars: nat) returns (parts: seq<string>)
    requires maxChars >= 1
    ensures parts == SlicesAfter(content, 0, ending, maxChars)
  {
    parts := [];
    var idx := 0;
    while idx < |content|
      invariant parts + SlicesAfter(content, idx, ending, maxChars) == SlicesAfter(content, 0, ending, maxChars)
    {
      var end := if idx + maxChars < |content| then idx + maxChars else |content|;
      var chunk := content[idx..end];
      if idx + maxChars >= |content| {
        assert chunk == content[idx..];
        chunk := chunk + ending;
      }
      SlicesAfterStep(content, idx, ending, maxChars, chunk);
      Text.AppendOne(parts, chunk, SlicesAfter(content, idx + maxChars, ending, maxChars));
      parts := parts + [chunk];
      idx := idx + maxChars;
    }
  }

  /** `_split_long_line`, with its slicing loop. */
  method SplitLongLineParts(line: string, maxChars: nat) returns (parts: seq<string>)
    requires maxChars >= 1
    ensures parts == SplitLongLineAsWritten(line, maxChars)
  {
    if |line| <= maxChars {
      return [line];
    }
    var (content, ending) := SplitLineEnding(line);
    parts := SliceContent(content, ending, maxChars);
    if parts == [] && ending != [] {
      parts := [ending];
    }
  }

  /** The state of the packing loop of `_split_block`. */
  datatype Packer = Packer(pieces: seq<string>, current: string)

  /** The first test of the packing loop: the current piece is closed when the part would not fit beside it. */
  function MakeRoom(st: Packer, part: string, maxChars: nat): Packer {
    if st.current != [] && |st.current| + |part| > maxChars then Packer(st.pieces + [st.current], []) else st
  }

  /** The part joins the current piece, which is closed as soon as it is exactly full. */
  function AddPart(st: Packer, part: string, maxChars: nat): Packer {
    var cur := st.current + part;
    if |cur| == maxChars then Packer(st.pieces + [cur], []) else Packer(st.pieces, cur)
  }

  /** One part through the packing loop; an empty part is skipped. */
  function PackPart(st: Packer, part: string, maxChars: nat): Packer {
    if part == [] then st else AddPart(MakeRoom(st, part, maxChars), part, maxChars)
  }

  function PackParts(st: Packer, parts: seq<string>, maxChars: nat): Packer
    decreases |parts|
  {
    if parts == [] then st else PackParts(PackPart(st, parts[0], maxChars), parts[1..], maxChars)
  }

  function Flush(st: Packer): seq<string> {
    if st.current != [] then st.pieces + [st.current] else st.pieces
  }

  /** The pieces the packing loop makes of `parts`, from nothing. */
  function PackAll(parts: seq<string>, maxChars: nat): seq<string> {
    Flush(PackParts(Packer([], []), parts, maxChars))
  }

  /** The parts of every line, in order, as the code cuts them. */
  function LineParts(lines: seq<string>, maxChars: nat): (r: seq<string>)
    requires maxChars >= 1
    ensures forall i :: 0 <= i < |r| ==> |r[i]| <= maxChars + 2
  {
    if lines == [] then [] else SplitLongLineAsWritten(lines[0], maxChars) + LineParts(lines[1..], maxChars)
  }

  lemma {:induction false} LinePartsConcat(lines: seq<string>, maxChars: nat)
    requires maxChars >= 1
    ensures Text.Concat(LineParts(lines, maxChars)) == Text.Concat(lines)
  {
    if lines != [] {
      LinePartsConcat(lines[1..], maxChars);
      Text.ConcatAppend(SplitLongLineAsWritten(lines[0], maxChars), LineParts(lines[1..], maxChars));
    }
  }

  /** The parts of every line, in order, as intended. */
  function LinePartsIntended(lines: seq<string>, maxChars: nat): (r: seq<string>)
    requires maxChars >= 1
    ensures forall i :: 0 <= i < |r| ==> |r[i]| <= maxChars
  {
    if lines == [] then [] else SplitLongLineIntended(lines[0], maxChars) + LinePartsIntended(lines[1..], maxChars)
  }

  lemma {:induction false} LinePartsIntendedConcat(lines: seq<string>, maxChars: nat)
    requires maxChars >= 1
    ensures Text.Concat(LinePartsIntended(lines, maxChars)) == Text.Concat(lines)
  {
    if lines != [] {
      LinePartsIntendedConcat(lines[1..], maxChars);
      Text.ConcatAppend(SplitLongLineIntended(lines[0], maxChars), LinePartsIntended(lines[1..], maxChars));
    }
  }

  /** `_split_block`: a short block is kept whole; a long one is cut line by line. */
  function SplitBlock(block: string, maxChars: nat): seq<string>
    requires maxChars >= 1
  {
    if |block| <= maxChars then [block]
    else PackAll(LineParts(Text.SplitLinesKeep(block), maxChars), maxChars)
  }

  /** `_split_block` on the intended line parts. */
  function SplitBlockIntended(block: string, maxChars: nat): seq<string>
    requires maxChars >= 1
  {
    if |block| <= maxChars then [block]
    else PackAll(LinePartsIntended(Text.SplitLinesKeep(block), maxChars), maxChars)
  }

  /** Every closed piece is non-empty and at most `cap` long, and so is the current one. */
  predicate Packed(st: Packer, cap: nat) {
    (forall i :: 0 <= i < |st.pieces| ==> 0 < |st.pieces[i]| <= cap) && |st.current| <= cap
  }

  /** The text held by the packer: the closed pieces, then the current one. */
  function Content(st: Packer): string {
    Text.Concat(st.pieces) + st.current
  }

  lemma ContentClose(pieces: seq<string>, current: string)
    ensures Text.Concat(pieces + [current]) == Text.Concat(pieces) + current
  {
    Text.ConcatAppend(pieces, [current]);
    assert Text.Concat([current]) == current;
  }

  lemma MakeRoomSound(st: Packer, part: string, maxChars: nat, cap: nat)
    requires Packed(st, cap)
    ensures Packed(MakeRoom(st, part, maxChars), cap)
    ensures Content(MakeRoom(st, part, maxChars)) == Content(st)
    ensures MakeRoom(st, part, maxChars).current == [] || |MakeRoom(st, part, maxChars).current| + |part| <= maxChars
  {
    if st.current != [] && |st.current| + |part| > maxChars {
      ContentClose(st.pieces, st.current);
    }
  }

  lemma AddPartSound(st: Packer, part: string, maxChars: nat, cap: nat)
    requires 1 <= maxChars <= cap && Packed(st, cap) && part != [] && |part| <= cap
    requires st.current == [] || |st.current| + |part| <= maxChars
    ensures Packed(AddPart(st, part, maxChars), cap)
    ensures Content(AddPart(st, part, maxChars)) == Content(st) + part
  {
    var cur := st.current + part;
    assert |cur| <= cap;
    if |cur| == maxChars {
      ContentClose(st.pieces, cur);
    }
  }

  lemma PackPartKeepsPacked(st: Packer, part: string, maxChars: nat, cap: nat)
    requires 1 <= maxChars <= cap && Packed(st, cap) && |part| <= cap
    ensures Packed(PackPart(st, part, maxChars), cap)
    ensures Content(PackPart(st, part, maxChars)) == Content(st) + part
  {
    if part != [] {
      MakeRoomSound(st, part, maxChars, cap);
      AddPartSound(MakeRoom(st, part, maxChars), part, maxChars, cap);
    }
  }

  /** Packing parts of at most `cap` characters, for any `cap` no smaller
      than the limit, makes pieces of at most `cap` characters and loses or
      adds no character. */
  lemma {:induction false} PackPartsSound(st: Packer, parts: seq<string>, maxChars: nat, cap: nat)
    requires 1 <= maxChars <= cap && Packed(st, cap)
    requires forall i :: 0 <= i < |parts| ==> |parts[i]| <= cap
    ensures Packed(PackParts(st, parts, maxChars), cap)
    ensures Content(PackParts(st, parts, maxChars)) == Content(st) + Text.Concat(parts)
    decreases |parts|
  {
    if parts != [] {
      PackPartKeepsPacked(st, parts[0], maxChars, cap);
      PackPartsSound(PackPart(st, parts[0], maxChars), parts[1..], maxChars, cap);
      ConcatCons(parts);
    }
  }

  lemma FlushSound(st: Packer, cap: nat)
    requires Packed(st, cap)
    ensures Text.Concat(Flush(st)) == Content(st)
    ensures forall i :: 0 <= i < |Flush(st)| ==> 0 < |Flush(st)[i]| <= cap
  {
    ContentClose(st.pieces, st.current);
  }

  /** The pieces packed from parts of at most `cap` characters are
      non-empty, at most `cap` long, and concatenate back to the parts. */
  lemma PackAllSound(parts: seq<string>, maxChars: nat, cap: nat)
    requires 1 <= maxChars <= cap
    requires forall i :: 0 <= i < |parts| ==> |parts[i]| <= cap
    ensures Text.Concat(PackAll(parts, maxChars)) == Text.Concat(parts)
    ensures forall i :: 0 <= i < |PackAll(parts, maxChars)| ==> 0 < |PackAll(parts, maxChars)[i]| <= cap
  {
    PackPartsSound(Packer([], []), parts, maxChars, cap);
    assert Content(Packer([], [])) == [];
    FlushSound(PackParts(Packer([], []), parts, maxChars), cap);
  }

  /** The pieces of a block concatenate back to it; a short block is one
      piece; the pieces of a long block are non-empty and at most two
      characters over the limit. */
  lemma SplitBlockSound(block: string, maxChars: nat)
    requires maxChars >= 1
    ensures Text.Concat(SplitBlock(block, maxChars)) == block
    ensures |block| <= maxChars ==> SplitBlock(block, maxChars) == [block]
    ensures |block| > maxChars ==> forall i :: 0 <= i < |SplitBlock(block, maxChars)| ==> 0 < |SplitBlock(block, maxChars)[i]| <= maxChars + 2
  {
    if |block| <= maxChars {
      assert Text.Concat([block]) == block;
    } else {
      var lines := Text.SplitLinesKeep(block);
      LinePartsConcat(lines, maxChars);
      PackAllSound(LineParts(lines, maxChars), maxChars, maxChars + 2);
    }
  }

  /** With the intended line parts, the pieces of a long block are
      non-empty and within the limit, and still concatenate back to it. */
  lemma SplitBlockIntendedSound(block: string, maxChars: nat)
    requires maxChars >= 1
    ensures Text.Concat(SplitBlockIntended(block, maxChars)) == block
    ensures forall i :: 0 <= i < |SplitBlockIntended(block, maxChars)| ==> |SplitBlockIntended(block, maxChars)[i]| <= maxChars
    ensures |block| > maxChars ==> forall i :: 0 <= i < |SplitBlockIntended(block, maxChars)| ==> SplitBlockIntended(block, maxChars)[i] != []
  {
    if |block| <= maxChars {
      assert Text.Concat([block]) == block;
    } else {
      var lines := Text.SplitLinesKeep(block);
      LinePartsIntendedConcat(lines, maxChars);
      PackAllSound(LinePartsIntended(lines, maxChars), maxChars, maxChars);
    }
  }

  /** With a limit of 3, the block `abc\nd` is cut into `abc\n`, one
      character over the limit, and `d`. */
  lemma SplitBlockOverflows()
    ensures SplitBlock("abc\nd", 3) == ["abc\n", "d"]
  {
    AbcLines();
    SplitLongLineOverflows();
    ShortLineParts("d", 3);
    assert LineParts(["abc\n", "d"], 3) == ["abc\n", "d"] by {
      assert ["abc\n", "d"][1..] == ["d"];
    }
    PackAbc();
  }

  lemma AbcLines()
    ensures Text.SplitLinesKeep("abc\nd") == ["abc\n", "d"]
  {
    var block := "abc\nd";
    var e := Text.LineEnd(block);
    assert Text.IsLineBreak(block[3]);
    assert !Text.IsLineBreak(block[0]) && !Text.IsLineBreak(block[1]) && !Text.IsLineBreak(block[2]);
    assert e == (3, 4);
    assert block[..4] == "abc\n" && block[4..] == "d";
    OneCharLine('d');
  }

  lemma OneCharLine(c: char)
    requires !Text.IsLineBreak(c)
    ensures Text.SplitLinesKeep([c]) == [[c]]
  {
    assert Text.LineEnd([c]) == (1, 1);
    assert [c][..1] == [c] && [c][1..] == [];
    assert Text.SplitLinesKeep([]) == [];
  }

  lemma ShortLineParts(line: string, maxChars: nat)
    requires 1 <= |line| <= maxChars
    ensures LineParts([line], maxChars) == [line]
  {
    assert [line][1..] == [];
  }

  lemma PackAbc()
    ensures PackAll(["abc\n", "d"], 3) == ["abc\n", "d"]
  {
    assert PackPart(Packer([], []), "abc\n", 3) == Packer([], "abc\n");
    assert PackPart(Packer([], "abc\n"), "d", 3) == Packer(["abc\n"], "d");
    PackPartsCons(Packer([], []), "abc\n", ["d"], 3);
    PackPartsCons(Packer([], "abc\n"), "d", [], 3);
  }

  lemma PackPartsCons(st: Packer, part: string, rest: seq<string>, maxChars: nat)
    ensures PackParts(st, [part] + rest, maxChars) == PackParts(PackPart(st, part, maxChars), rest, maxChars)
  {
    assert ([part] + rest)[0] == part;
    assert ([part] + rest)[1..] == rest;
  }

  lemma PackPartsAt(st: Packer, parts: seq<string>, j: nat, later: seq<string>, maxChars: nat)
    requires j < |parts|
    ensures PackParts(st, parts[j..] + later, maxChars) == PackParts(PackPart(st, parts[j], maxChars), parts[j + 1..] + later, maxChars)
  {
    assert parts[j..] + later == [parts[j]] + (parts[j + 1..] + later);
    PackPartsCons(st, parts[j], parts[j + 1..] + later, maxChars);
  }

  lemma LinePartsFrom(lines: seq<string>, i: nat, maxChars: nat)
    requires maxChars >= 1 && i < |lines|
    ensures LineParts(lines[i..], maxChars) == SplitLongLineAsWritten(lines[i], maxChars) + LineParts(lines[i + 1..], maxChars)
  {
    assert lines[i..][0] == lines[i];
    assert lines[i..][1..] == lines[i + 1..];
  }

  /** The loops of `_split_block`. */
  method SplitBlockPieces(block: string, maxChars: nat) returns (pieces: seq<string>)
    requires maxChars >= 1
    ensures pieces == SplitBlock(block, maxChars)
  {
    if |block| <= maxChars {
      return [block];
    }
    var lines := Text.SplitLinesKeep(block);
    ghost var goal := PackParts(Packer([], []), LineParts(lines, maxChars), maxChars);
    pieces := [];
    var current: string := [];
    assert lines[0..] == lines;
    for i := 0 to |lines|
      invariant PackParts(Packer(pieces, current), LineParts(lines[i..], maxChars), maxChars) == goal
    {
      var parts := SplitLongLineParts(lines[i], maxChars);
      ghost var later := LineParts(lines[i + 1..], maxChars);
      LinePartsFrom(lines, i, maxChars);
      assert parts[0..] == parts;
      for j := 0 to |parts|
        invariant PackParts(Packer(pieces, current), parts[j..] + later, maxChars) == goal
      {
        var part := parts[j];
        PackPartsAt(Packer(pieces, current), parts, j, later, maxChars);
        if part != [] {
          if current != [] && |current| + |part| > maxChars {
            pieces := pieces + [current];
            current := [];
          }
          current := current + part;
          if |current| == maxChars {
            pieces := pieces + [current];
            current := [];
          }
        }
      }
      assert parts[|parts|..] + later == later;
    }
    assert lines[|lines|..] == [];
    if current != [] {
      pieces := pieces + [current];
    }
  }
  /** An open code fence: its fence run, its indent and the line that opened it. */
  datatype FenceState = FenceState(fence: string, indent: string, header: string)

  predicate IsIndentChar(c: char) {
    c == ' ' || c == '\t'
  }

  predicate IsFenceChar(c: char) {
    c == '`' || c == '~'
  }

  /** The length of the longest prefix of `s` whose characters all satisfy `p`. */
  function RunLen(s: string, p: char -> bool): (n: nat)
    ensures n <= |s|
    ensures forall i :: 0 <= i < n ==> p(s[i])
    ensures n < |s| ==> !p(s[n])
    decreases |s|
  {
    if s == [] || !p(s[0]) then 0
    else
      var n := RunLen(s[1..], p);
      assert forall i :: 1 <= i < 1 + n ==> s[i] == s[1..][i - 1];
      1 + n
  }

  /** A run is determined by where it stops. */
  lemma RunLenExact(s: string, p: char -> bool, n: nat)
    requires n <= |s|
    requires forall i :: 0 <= i < n ==> p(s[i])
    requires n < |s| ==> !p(s[n])
    ensures RunLen(s, p) == n
  {
  }

  /** A match of the code-fence pattern: an indent of spaces and tabs, then a
      run of three or more backticks or tildes, then anything. */
  function FenceMatch(line: string): (r: Option<(string, string)>)
    ensures r.Some? ==> Text.StartsWith(line, r.value.0 + r.value.1) && |r.value.1| >= 3
    ensures r.Some? ==> forall i :: 0 <= i < |r.value.0| ==> IsIndentChar(r.value.0[i])
    ensures r.Some? ==> forall i :: 0 <= i < |r.value.1| ==> IsFenceChar(r.value.1[i])
  {
    var n := RunLen(line, IsIndentChar);
    var m := RunLen(line[n..], IsFenceChar);
    if m >= 3 then
      assert line[..n + m] == line[..n] + line[n..n + m];
      assert forall i :: 0 <= i < m ==> line[n..n + m][i] == line[n..][i];
      Some((line[..n], line[n..n + m]))
    else None
  }

  /** The pattern finds exactly the indent and fence a line was built from. */
  lemma FenceLineMatches(indent: string, fence: string, info: string)
    requires forall i :: 0 <= i < |indent| ==> IsIndentChar(indent[i])
    requires |fence| >= 3 && forall i :: 0 <= i < |fence| ==> IsFenceChar(fence[i])
    requires info == [] || !IsFenceChar(info[0])
    ensures FenceMatch(indent + fence + info) == Some((indent, fence))
  {
    var line := indent + fence + info;
    assert line[|indent|] == fence[0];
    RunLenExact(line, IsIndentChar, |indent|);
    var rest := line[|indent|..];
    assert rest == fence + info;
    assert |fence| < |rest| ==> rest[|fence|] == info[0];
    RunLenExact(rest, IsFenceChar, |fence|);
    assert line[..|indent|] == indent;
    assert line[|indent|..|indent| + |fence|] == fence;
  }

  /** A fence state as `_update_fence_state` builds it: its header line matches with its indent and fence. */
  predicate ValidState(state: Option<FenceState>) {
    state.None? || FenceMatch(state.value.header) == Some((state.value.indent, state.value.fence))
  }

  /** `_update_fence_state`: a fence line opens a fence when none is open,
      and closes the open one when it uses the same character and is at
      least as long; every other line leaves the state alone. */
  function UpdateFenceState(line: string, state: Option<FenceState>): (r: Option<FenceState>)
    requires ValidState(state)
    ensures ValidState(r)
    ensures FenceMatch(line).None? ==> r == state
    ensures state.None? && FenceMatch(line).Some? ==>
      r == Some(FenceState(FenceMatch(line).value.1, FenceMatch(line).value.0, line))
    ensures state.Some? ==> r.None? || r == state
    ensures state.Some? ==> (r.None? <==>
      FenceMatch(line).Some? && FenceMatch(line).value.1[0] == state.value.fence[0]
      && |FenceMatch(line).value.1| >= |state.value.fence|)
  {
    match FenceMatch(line)
    case None => state
    case Some((indent, fence)) =>
      if state.None? then Some(FenceState(fence, indent, line))
      else if fence[0] == state.value.fence[0] && |fence| >= |state.value.fence| then None
      else state
  }

  /** The line a cut appends closes the open fence, and the line the next
      chunk starts with opens the same fence again. */
  lemma CloseAndReopenFence(s: FenceState)
    requires ValidState(Some(s))
    ensures UpdateFenceState(s.indent + s.fence, Some(s)) == None
    ensures UpdateFenceState(s.header, None) == Some(s)
  {
    FenceLineMatches(s.indent, s.fence, []);
    assert s.indent + s.fence + [] == s.indent + s.fence;
  }

  function FoldFence(lines: seq<string>, state: Option<FenceState>): (r: Option<FenceState>)
    requires ValidState(state)
    ensures ValidState(r)
    decreases |lines|
  {
    if lines == [] then state else FoldFence(lines[1..], UpdateFenceState(lines[0], state))
  }

  /** `_scan_fence_state`: the fence state after every line of `text`. */
  function ScanFence(text: string, state: Option<FenceState>): (r: Option<FenceState>)
    requires ValidState(state)
    ensures ValidState(r)
  {
    FoldFence(Text.SplitLines(text), state)
  }

  /** Lines that are not fence lines leave the state as it was. */
  lemma {:induction false} FoldWithoutFences(lines: seq<string>, state: Option<FenceState>)
    requires ValidState(state)
    requires forall i :: 0 <= i < |lines| ==> FenceMatch(lines[i]).None?
    ensures FoldFence(lines, state) == state
    decreases |lines|
  {
    if lines != [] {
      assert forall i :: 0 <= i < |lines| - 1 ==> lines[1..][i] == lines[i + 1];
      FoldWithoutFences(lines[1..], state);
    }
  }

  /** The loop of `_scan_fence_state`. */
  method ScanFenceState(text: string, state: Option<FenceState>) returns (r: Option<FenceState>)
    requires ValidState(state)
    ensures r == ScanFence(text, state)
  {
    var lines := Text.SplitLines(text);
    r := state;
    assert lines[0..] == lines;
    for i := 0 to |lines|
      invariant ValidState(r)
      invariant FoldFence(lines[i..], r) == ScanFence(text, state)
    {
      assert lines[i..][1..] == lines[i + 1..];
      r := UpdateFenceState(lines[i], r);
    }
  }

  predicate IsNewline(c: char) {
    c == '\n'
  }

  predicate DoubleNewlineAt(s: string, k: int) {
    0 <= k && k + 1 < |s| && s[k] == '\n' && s[k + 1] == '\n'
  }

  /** Where the first run of two or more newlines at or after `i` starts. */
  function DoubleNewlineFrom(s: string, i: nat): (r: Option<nat>)
    requires i <= |s|
    ensures r.Some? ==> i <= r.value && DoubleNewlineAt(s, r.value)
    ensures r.Some? ==> forall k :: i <= k < r.value ==> !DoubleNewlineAt(s, k)
    ensures r.None? ==> forall k :: i <= k ==> !DoubleNewlineAt(s, k)
    decreases |s| - i
  {
    if i + 1 >= |s| then None
    else if DoubleNewlineAt(s, i) then Some(i)
    else DoubleNewlineFrom(s, i + 1)
  }

  /** The blocks of `split_markdown_body`: `re.split` on runs of two or more
      newlines, each paragraph joined with the run that follows it, empty
      blocks dropped. */
  function Paragraphs(body: string): (r: seq<string>)
    ensures Text.Concat(r) == body
    ensures forall i :: 0 <= i < |r| ==> r[i] != []
    ensures r != [] ==> r[0][0] == body[0]
    decreases |body|
  {
    match DoubleNewlineFrom(body, 0)
    case None => if body == [] then [] else [body]
    case Some(k) =>
      var e := k + RunLen(body[k..], IsNewline);
      assert body[k..][1] == body[k + 1];
      assert e >= k + 2;
      assert body == body[..e] + body[e..];
      [body[..e]] + Paragraphs(body[e..])
  }

  /** The last two characters are newlines. */
  predicate EndsWithBlankLine(s: string) {
    |s| >= 2 && s[|s| - 2] == '\n' && s[|s| - 1] == '\n'
  }

  /** The first block of a body that holds a blank line: up to the end of
      its first newline run, which the rest does not continue. */
  lemma ParagraphsHead(body: string) returns (e: nat)
    requires DoubleNewlineFrom(body, 0).Some?
    ensures 2 <= e <= |body|
    ensures Paragraphs(body) == [body[..e]] + Paragraphs(body[e..])
    ensures EndsWithBlankLine(body[..e])
    ensures e < |body| ==> body[e] != '\n'
  {
    var k := DoubleNewlineFrom(body, 0).value;
    var n := RunLen(body[k..], IsNewline);
    e := k + n;
    assert body[k..][1] == body[k + 1];
    var head := body[..e];
    assert head[e - 2] == body[k..][n - 2] && head[e - 1] == body[k..][n - 1];
    if e < |body| {
      assert body[e] == body[k..][n];
    }
  }

  /** Every block but the last ends with the newline run that separated it. */
  lemma {:induction false} ParagraphsEndWithRun(body: string)
    ensures var r := Paragraphs(body); forall i :: 0 <= i < |r| - 1 ==> EndsWithBlankLine(r[i])
    decreases |body|
  {
    if DoubleNewlineFrom(body, 0).Some? {
      var e := ParagraphsHead(body);
      var rest := Paragraphs(body[e..]);
      ParagraphsEndWithRun(body[e..]);
      assert forall j :: 0 <= j < |rest| - 1 ==> EndsWithBlankLine(rest[j]);
      var r := Paragraphs(body);
      forall i | 0 < i < |r| - 1
        ensures EndsWithBlankLine(r[i])
      {
        assert r[i] == rest[i - 1];
      }
    }
  }

  /** No block but the first starts with a newline: each run is taken whole. */
  lemma {:induction false} ParagraphsStartAfterRun(body: string)
    ensures var r := Paragraphs(body); forall i :: 0 < i < |r| ==> r[i][0] != '\n'
    decreases |body|
  {
    if DoubleNewlineFrom(body, 0).Some? {
      var e := ParagraphsHead(body);
      var rest := Paragraphs(body[e..]);
      ParagraphsStartAfterRun(body[e..]);
      assert forall j :: 0 < j < |rest| ==> rest[j][0] != '\n';
      if rest != [] {
        assert rest[0][0] == body[e];
      }
      var r := Paragraphs(body);
      forall i | 0 < i < |r|
        ensures r[i][0] != '\n'
      {
        assert r[i] == rest[i - 1];
      }
    }
  }

  /** `_ensure_trailing_newline`. */
  function EnsureTrailingNewline(text: string): (r: string)
    ensures r == text || r == text + "\n"
    ensures r != [] && (r[|r| - 1] == '\n' || r[|r| - 1] == '\r')
  {
    if Text.EndsWith(text, "\n") || Text.EndsWith(text, "\r") then
      assert text[|text| - 1..] == [text[|text| - 1]];
      text
    else text + "\n"
  }

  /** `_close_fence_chunk`: the chunk, a line break, and the fence that closes it. */
  function CloseFenceChunk(text: string, state: FenceState): string {
    EnsureTrailingNewline(text) + state.indent + state.fence + "\n"
  }

  /** `_reopen_fence_prefix`: the fence's opening line again. */
  function ReopenFencePrefix(state: FenceState): string {
    state.header + "\n"
  }

  /** The state of the chunking loop of `split_markdown_body`. */
  datatype Chunker = Chunker(chunks: seq<string>, current: string, state: Option<FenceState>)

  /** One piece through the chunking loop: it joins the current chunk when
      it fits; otherwise the current chunk is closed (and with it an open
      fence) and the piece starts the next one (after the fence's opening
      line again). */
  function ChunkPiece(c: Chunker, piece: string, maxChars: nat): (r: Chunker)
    requires ValidState(c.state)
    ensures ValidState(r.state)
  {
    if c.current == [] then Chunker(c.chunks, piece, ScanFence(piece, c.state))
    else if |c.current| + |piece| <= maxChars then Chunker(c.chunks, c.current + piece, ScanFence(piece, c.state))
    else
      var closed := if c.state.Some? then CloseFenceChunk(c.current, c.state.value) else c.current;
      var reopened := if c.state.Some? then ReopenFencePrefix(c.state.value) else [];
      Chunker(c.chunks + [closed], reopened + piece, ScanFence(piece, c.state))
  }

  function ChunkPieces(c: Chunker, pieces: seq<string>, maxChars: nat): (r: Chunker)
    requires ValidState(c.state)
    ensures ValidState(r.state)
    decreases |pieces|
  {
    if pieces == [] then c else ChunkPieces(ChunkPiece(c, pieces[0], maxChars), pieces[1..], maxChars)
  }

  /** The pieces of every block, in order. */
  function BlockPieces(blocks: seq<string>, maxChars: nat): seq<string>
    requires maxChars >= 1
  {
    if blocks == [] then [] else SplitBlock(blocks[0], maxChars) + BlockPieces(blocks[1..], maxChars)
  }

  /** The chunks before blank ones are dropped. */
  function RawChunks(body: string, maxChars: nat): seq<string>
    requires maxChars >= 1
  {
    var fin := ChunkPieces(Chunker([], [], None), BlockPieces(Paragraphs(body), maxChars), maxChars);
    if fin.current != [] then fin.chunks + [fin.current] else fin.chunks
  }

  /** The chunks that are not blank, in order. */
  function NonBlank(chunks: seq<string>): (r: seq<string>)
    ensures forall i :: 0 <= i < |r| ==> !Text.AllSpace(r[i]) && r[i] in chunks
    ensures forall i :: 0 <= i < |chunks| && !Text.AllSpace(chunks[i]) ==> chunks[i] in r
  {
    if chunks == [] then []
    else if Text.AllSpace(chunks[0]) then NonBlank(chunks[1..])
    else [chunks[0]] + NonBlank(chunks[1..])
  }

  /** The limit as `split_markdown_body` uses it: at least 1. */
  function Limit(maxChars: int): (m: nat)
    ensures m >= 1 && (maxChars >= 1 ==> m == maxChars)
  {
    if maxChars < 1 then 1 else maxChars
  }

  /** `split_markdown_body`: a blank body has no chunks, and no chunk is blank. */
  function SplitMarkdownBody(body: string, maxChars: int): (r: seq<string>)
    ensures Text.AllSpace(body) ==> r == []
    ensures forall i :: 0 <= i < |r| ==> !Text.AllSpace(r[i])
  {
    if Text.AllSpace(body) then [] else NonBlank(RawChunks(body, Limit(maxChars)))
  }

  lemma BlockPiecesFrom(blocks: seq<string>, i: nat, maxChars: nat)
    requires maxChars >= 1 && i < |blocks|
    ensures BlockPieces(blocks[i..], maxChars) == SplitBlock(blocks[i], maxChars) + BlockPieces(blocks[i + 1..], maxChars)
  {
    assert blocks[i..][0] == blocks[i];
    assert blocks[i..][1..] == blocks[i + 1..];
  }

  lemma ChunkPiecesAt(c: Chunker, pieces: seq<string>, j: nat, later: seq<string>, maxChars: nat)
    requires ValidState(c.state) && j < |pieces|
    ensures ChunkPieces(c, pieces[j..] + later, maxChars) == ChunkPieces(ChunkPiece(c, pieces[j], maxChars), pieces[j + 1..] + later, maxChars)
  {
    var all := pieces[j..] + later;
    assert all == [pieces[j]] + (pieces[j + 1..] + later);
    assert all[0] == pieces[j] && all[1..] == pieces[j + 1..] + later;
  }

  /** The loops of `split_markdown_body`. */
  method SplitMarkdownBodyChunks(body: string, maxChars: int) returns (chunks: seq<string>)
    ensures chunks == SplitMarkdownBody(body, maxChars)
  {
    if Text.AllSpace(body) {
      return [];
    }
    var m := Limit(maxChars);
    var blocks := Paragraphs(body);
    ghost var goal := ChunkPieces(Chunker([], [], None), BlockPieces(blocks, m), m);
    var raw: seq<string> := [];
    var current: string := [];
    var state: Option<FenceState> := None;
    assert blocks[0..] == blocks;
    for i := 0 to |blocks|
      invariant ValidState(state)
      invariant ChunkPieces(Chunker(raw, current, state), BlockPieces(blocks[i..], m), m) == goal
    {
      var pieces := SplitBlockPieces(blocks[i], m);
      ghost var later := BlockPieces(blocks[i + 1..], m);
      BlockPiecesFrom(blocks, i, m);
      assert pieces[0..] == pieces;
      for j := 0 to |pieces|
        invariant ValidState(state)
        invariant ChunkPieces(Chunker(raw, current, state), pieces[j..] + later, m) == goal
      {
        var piece := pieces[j];
        ChunkPiecesAt(Chunker(raw, current, state), pieces, j, later, m);
        if current == [] {
          current := piece;
          state := ScanFenceState(piece, state);
        } else if |current| + |piece| <= m {
          current := current + piece;
          state := ScanFenceState(piece, state);
        } else {
          if state.Some? {
            current := CloseFenceChunk(current, state.value);
          }
          raw := raw + [current];
          current := if state.Some? then ReopenFencePrefix(state.value) else [];
          current := current + piece;
          state := ScanFenceState(piece, state);
        }
      }
      assert pieces[|pieces|..] + later == later;
    }
    assert blocks[|blocks|..] == [];
    if current != [] {
      raw := raw + [current];
    }
    chunks := NonBlank(raw);
  }

  /** A cut made inside an open code fence ends the chunk with a line that
      closes the fence, and starts the next chunk with the line that opened it. */
  lemma CutClosesOpenFence(c: Chunker, piece: string, maxChars: nat)
    requires ValidState(c.state) && c.state.Some?
    requires c.current != [] && |c.current| + |piece| > maxChars
    ensures var r := ChunkPiece(c, piece, maxChars);
      var s := c.state.value;
      r.chunks == c.chunks + [EnsureTrailingNewline(c.current) + (s.indent + s.fence) + "\n"]
      && r.current == s.header + "\n" + piece
      && UpdateFenceState(s.indent + s.fence, c.state) == None
      && UpdateFenceState(s.header, None) == c.state
  {
    var s := c.state.value;
    CloseAndReopenFence(s);
    assert EnsureTrailingNewline(c.current) + s.indent + s.fence + "\n" == EnsureTrailingNewline(c.current) + (s.indent + s.fence) + "\n";
  }

  /** No backtick and no tilde. */
  predicate FenceFree(s: string) {
    forall i :: 0 <= i < |s| ==> !IsFenceChar(s[i])
  }

  lemma {:induction false} ConcatFenceFree(parts: seq<string>)
    requires FenceFree(Text.Concat(parts))
    ensures forall i :: 0 <= i < |parts| ==> FenceFree(parts[i])
  {
    if parts != [] {
      var all := Text.Concat(parts);
      assert all == parts[0] + Text.Concat(parts[1..]);
      assert forall k :: 0 <= k < |parts[0]| ==> all[k] == parts[0][k];
      assert forall k :: 0 <= k < |Text.Concat(parts[1..])| ==> all[|parts[0]| + k] == Text.Concat(parts[1..])[k];
      ConcatFenceFree(parts[1..]);
      forall i | 1 <= i < |parts|
        ensures FenceFree(parts[i])
      {
        assert parts[i] == parts[1..][i - 1];
      }
    }
  }

  /** No line opens or closes a fence. */
  predicate NoFenceLines(lines: seq<string>) {
    forall i :: 0 <= i < |lines| ==> FenceMatch(lines[i]).None?
  }

  lemma {:induction false} SplitLinesFenceFree(s: string)
    requires FenceFree(s)
    ensures NoFenceLines(Text.SplitLines(s))
    decreases |s|
  {
    if s != [] {
      var e := Text.LineEnd(s);
      SplitLinesCons(s);
      FenceFreeSlices(s, e.0, e.1);
      SplitLinesFenceFree(s[e.1..]);
      FenceFreeLine(s[..e.0]);
      NoFenceCons(s[..e.0], Text.SplitLines(s[e.1..]));
    }
  }

  lemma SplitLinesCons(s: string)
    requires s != []
    ensures Text.SplitLines(s) == [s[..Text.LineEnd(s).0]] + Text.SplitLines(s[Text.LineEnd(s).1..])
  {
  }

  lemma FenceFreeSlices(s: string, a: nat, b: nat)
    requires FenceFree(s) && a <= b <= |s|
    ensures FenceFree(s[..a]) && FenceFree(s[b..])
  {
    assert forall i :: 0 <= i < a ==> s[..a][i] == s[i];
    assert forall i :: 0 <= i < |s| - b ==> s[b..][i] == s[b + i];
  }

  lemma FenceFreeLine(line: string)
    requires FenceFree(line)
    ensures FenceMatch(line).None?
  {
    var n := RunLen(line, IsIndentChar);
    if n < |line| {
      assert line[n..][0] == line[n];
    }
  }

  lemma NoFenceCons(line: string, rest: seq<string>)
    requires FenceMatch(line).None? && NoFenceLines(rest)
    ensures NoFenceLines([line] + rest)
  {
    var all := [line] + rest;
    assert forall i :: 1 <= i < |all| ==> all[i] == rest[i - 1];
  }

  /** Text without backticks or tildes neither opens nor closes a fence. */
  lemma ScanFenceFree(text: string, state: Option<FenceState>)
    requires ValidState(state) && FenceFree(text)
    ensures ScanFence(text, state) == state
  {
    SplitLinesFenceFree(text);
    FoldWithoutFences(Text.SplitLines(text), state);
  }

  /** Outside a fence: the closed chunks are non-empty and at most `cap` long, and so is the current one. */
  predicate ChunksWithin(c: Chunker, cap: nat) {
    c.state.None? && (forall i :: 0 <= i < |c.chunks| ==> 0 < |c.chunks[i]| <= cap) && |c.current| <= cap
  }

  lemma ChunkPieceFenceFree(c: Chunker, piece: string, maxChars: nat, cap: nat)
    requires maxChars <= cap && ChunksWithin(c, cap) && |piece| <= cap && FenceFree(piece)
    ensures ChunksWithin(ChunkPiece(c, piece, maxChars), cap)
    ensures Text.Concat(ChunkPiece(c, piece, maxChars).chunks) + ChunkPiece(c, piece, maxChars).current
            == Text.Concat(c.chunks) + c.current + piece
  {
    ScanFenceFree(piece, None);
    if c.current != [] && |c.current| + |piece| > maxChars {
      CutFenceFree(c, piece, maxChars, cap);
    }
  }

  /** A cut outside a fence closes the current chunk as it is and starts the next with the piece. */
  lemma CutFenceFree(c: Chunker, piece: string, maxChars: nat, cap: nat)
    requires ChunksWithin(c, cap) && |piece| <= cap && ScanFence(piece, None) == None
    requires c.current != [] && |c.current| + |piece| > maxChars
    ensures ChunkPiece(c, piece, maxChars) == Chunker(c.chunks + [c.current], piece, None)
    ensures ChunksWithin(Chunker(c.chunks + [c.current], piece, None), cap)
    ensures Text.Concat(c.chunks + [c.current]) + piece == Text.Concat(c.chunks) + c.current + piece
  {
    Text.ConcatAppend(c.chunks, [c.current]);
    assert Text.Concat([c.current]) == c.current;
  }

  /** Every piece is at most `cap` long and holds no fence character. */
  predicate PiecesFit(pieces: seq<string>, cap: nat) {
    forall i :: 0 <= i < |pieces| ==> |pieces[i]| <= cap && FenceFree(pieces[i])
  }

  lemma PiecesFitTail(pieces: seq<string>, cap: nat)
    requires pieces != [] && PiecesFit(pieces, cap)
    ensures |pieces[0]| <= cap && FenceFree(pieces[0]) && PiecesFit(pieces[1..], cap)
  {
    assert forall i :: 0 <= i < |pieces| - 1 ==> pieces[1..][i] == pieces[i + 1];
  }

  lemma ChunkPiecesCons(c: Chunker, pieces: seq<string>, maxChars: nat)
    requires ValidState(c.state) && pieces != []
    ensures ChunkPieces(c, pieces, maxChars) == ChunkPieces(ChunkPiece(c, pieces[0], maxChars), pieces[1..], maxChars)
  {
  }

  lemma ConcatCons(pieces: seq<string>)
    requires pieces != []
    ensures Text.Concat(pieces) == pieces[0] + Text.Concat(pieces[1..])
  {
  }

  lemma Regroup(a: string, b: string, p: string, rest: string)
    ensures (a + b + p) + rest == a + b + (p + rest)
  {
  }

  lemma {:induction false} ChunkPiecesFenceFree(c: Chunker, pieces: seq<string>, maxChars: nat, cap: nat)
    requires maxChars <= cap && ChunksWithin(c, cap) && PiecesFit(pieces, cap)
    ensures ChunksWithin(ChunkPieces(c, pieces, maxChars), cap)
    ensures Text.Concat(ChunkPieces(c, pieces, maxChars).chunks) + ChunkPieces(c, pieces, maxChars).current
            == Text.Concat(c.chunks) + c.current + Text.Concat(pieces)
    decreases |pieces|
  {
    if pieces == [] {
      assert Text.Concat(c.chunks) + c.current + Text.Concat(pieces) == Text.Concat(c.chunks) + c.current;
    } else {
      PiecesFitTail(pieces, cap);
      var next := ChunkPiece(c, pieces[0], maxChars);
      ChunkPieceFenceFree(c, pieces[0], maxChars, cap);
      ChunkPiecesFenceFree(next, pieces[1..], maxChars, cap);
      ChunkPiecesCons(c, pieces, maxChars);
      ConcatCons(pieces);
      Regroup(Text.Concat(c.chunks), c.current, pieces[0], Text.Concat(pieces[1..]));
    }
  }

  /** The pieces of the blocks concatenate back to the blocks, and are at
      most two characters over the limit. */
  lemma {:induction false} BlockPiecesSound(blocks: seq<string>, maxChars: nat)
    requires maxChars >= 1
    ensures Text.Concat(BlockPieces(blocks, maxChars)) == Text.Concat(blocks)
    ensures forall i :: 0 <= i < |BlockPieces(blocks, maxChars)| ==> |BlockPieces(blocks, maxChars)[i]| <= maxChars + 2
  {
    if blocks != [] {
      var first := SplitBlock(blocks[0], maxChars);
      SplitBlockSound(blocks[0], maxChars);
      assert forall i :: 0 <= i < |first| ==> |first[i]| <= maxChars + 2;
      BlockPiecesSound(blocks[1..], maxChars);
      Text.ConcatAppend(first, BlockPieces(blocks[1..], maxChars));
    }
  }

  /** The chunks outside a fence, with the current one closed. */
  lemma CloseLastChunk(fin: Chunker, cap: nat)
    requires ChunksWithin(fin, cap)
    ensures var raw := if fin.current != [] then fin.chunks + [fin.current] else fin.chunks;
      Text.Concat(raw) == Text.Concat(fin.chunks) + fin.current
      && forall i :: 0 <= i < |raw| ==> 0 < |raw[i]| <= cap
  {
    Text.ConcatAppend(fin.chunks, [fin.current]);
    assert Text.Concat([fin.current]) == fin.current;
  }

  lemma FenceFreeRawChunks(body: string, maxChars: nat)
    requires maxChars >= 1 && FenceFree(body)
    ensures Text.Concat(RawChunks(body, maxChars)) == body
    ensures forall i :: 0 <= i < |RawChunks(body, maxChars)| ==> 0 < |RawChunks(body, maxChars)[i]| <= maxChars + 2
  {
    var cap := maxChars + 2;
    var pieces := BlockPieces(Paragraphs(body), maxChars);
    assert Text.Concat(pieces) == body && forall i :: 0 <= i < |pieces| ==> |pieces[i]| <= cap by {
      BlockPiecesSound(Paragraphs(body), maxChars);
    }
    assert PiecesFit(pieces, cap) by {
      ConcatFenceFree(pieces);
    }
    var fin := ChunkPieces(Chunker([], [], None), pieces, maxChars);
    assert ChunksWithin(fin, cap) && Text.Concat(fin.chunks) + fin.current == Text.Concat(pieces) by {
      ChunkPiecesFenceFree(Chunker([], [], None), pieces, maxChars, cap);
      assert Text.Concat([]) + [] == [];
    }
    CloseLastChunk(fin, cap);
  }

  /** A body without code fences (no backtick, no tilde) is cut into chunks
      at most two characters over the limit that, before blank ones are
      dropped, concatenate back to the body. */
  lemma FenceFreeBodySplit(body: string, maxChars: int)
    requires FenceFree(body)
    ensures Text.Concat(RawChunks(body, Limit(maxChars))) == body
    ensures forall i :: 0 <= i < |SplitMarkdownBody(body, maxChars)| ==> 0 < |SplitMarkdownBody(body, maxChars)[i]| <= Limit(maxChars) + 2
  {
    var m := Limit(maxChars);
    FenceFreeRawChunks(body, m);
    var raw := RawChunks(body, m);
    var r := SplitMarkdownBody(body, maxChars);
    assert forall i :: 0 <= i < |r| ==> r[i] in raw;
  }

  /** A part of a concatenation is no longer than the whole. */
  lemma {:induction false} PartWithinConcat(parts: seq<string>, i: nat)
    requires i < |parts|
    ensures |parts[i]| <= |Text.Concat(parts)|
  {
    ConcatCons(parts);
    if i > 0 {
      PartWithinConcat(parts[1..], i - 1);
    }
  }

  /** Blocks within the limit are their own pieces. */
  lemma {:induction false} ShortBlocksWhole(blocks: seq<string>, maxChars: nat)
    requires maxChars >= 1
    requires forall i :: 0 <= i < |blocks| ==> |blocks[i]| <= maxChars
    ensures BlockPieces(blocks, maxChars) == blocks
  {
    if blocks != [] {
      assert forall i :: 0 <= i < |blocks| - 1 ==> blocks[1..][i] == blocks[i + 1];
      ShortBlocksWhole(blocks[1..], maxChars);
      assert blocks == [blocks[0]] + blocks[1..];
    }
  }

  /** Pieces that fit beside the current chunk all join it: no chunk is closed. */
  lemma {:induction false} ChunkPiecesNoCut(c: Chunker, pieces: seq<string>, maxChars: nat)
    requires ValidState(c.state)
    requires |c.current| + |Text.Concat(pieces)| <= maxChars
    ensures ChunkPieces(c, pieces, maxChars).chunks == c.chunks
    ensures ChunkPieces(c, pieces, maxChars).current == c.current + Text.Concat(pieces)
    decreases |pieces|
  {
    if pieces != [] {
      ConcatCons(pieces);
      var next := ChunkPiece(c, pieces[0], maxChars);
      assert next.chunks == c.chunks && next.current == c.current + pieces[0];
      ChunkPiecesNoCut(next, pieces[1..], maxChars);
      ChunkPiecesCons(c, pieces, maxChars);
    }
  }

  /** A body within the limit that is not blank is sent as one chunk, whatever fences it holds. */
  lemma ShortBodyOneChunk(body: string, maxChars: int)
    requires !Text.AllSpace(body) && |body| <= Limit(maxChars)
    ensures SplitMarkdownBody(body, maxChars) == [body]
  {
    var m := Limit(maxChars);
    var blocks := Paragraphs(body);
    forall i | 0 <= i < |blocks|
      ensures |blocks[i]| <= m
    {
      PartWithinConcat(blocks, i);
    }
    ShortBlocksWhole(blocks, m);
    var fin := ChunkPieces(Chunker([], [], None), BlockPieces(blocks, m), m);
    assert fin.chunks == [] && fin.current == body by {
      ChunkPiecesNoCut(Chunker([], [], None), blocks, m);
    }
    assert body != [];
    assert RawChunks(body, m) == [body];
    NonBlankOne(body);
  }

  lemma NonBlankOne(s: string)
    requires !Text.AllSpace(s)
    ensures NonBlank([s]) == [s]
  {
    assert [s][1..] == [];
  }

  /** Python's `s[:k]`, where a negative `k` counts from the end. */
  function PyPrefix(s: string, k: int): (r: string)
    ensures 0 <= k <= |s| ==> r == s[..k]
    ensures k > |s| ==> r == s
    ensures k < 0 ==> |r| == (if |s| + k < 0 then 0 else |s| + k) && r == s[..|r|]
  {
    if k >= |s| then s
    else if k >= 0 then s[..k]
    else if |s| + k >= 0 then s[..|s| + k]
    else []
  }

  /** `trim_body`: no body, an empty one or a blank one gives nothing; a body
      over the limit keeps its first `maxChars - 1` characters and ends with
      an ellipsis, so it is exactly `maxChars` long. */
  function TrimBody(body: Option<string>, maxChars: int): (r: Option<string>)
    ensures body.None? || body == Some([]) ==> r.None?
    ensures body.Some? && |body.value| <= maxChars ==> r == (if Text.AllSpace(body.value) then None else body)
    ensures body.Some? && |body.value| > maxChars >= 1 ==>
      r.Some? && |r.value| == maxChars && r.value[..maxChars - 1] == body.value[..maxChars - 1] && r.value[maxChars - 1] == '\U{2026}'
    ensures maxChars >= 1 && r.Some? ==> |r.value| <= maxChars
  {
    if body.None? || body.value == [] then None
    else
      var b := if |body.value| > maxChars then PyPrefix(body.value, maxChars - 1) + "\U{2026}" else body.value;
      assert |body.value| > maxChars ==> !Text.IsSpace(b[|b| - 1]);
      if Text.AllSpace(b) then None else Some(b)
  }
}

/** The progress and final messages of the Codex exec bridge: a header with
    the elapsed time and turn, then the last few action lines, where an item's
    completion line takes the place of its running line. */
module ExecRender {
  import opened Wrappers
  import Json
  import Text
  import Codex

  const STATUS_RUNNING: string := "▸"
  const STATUS_DONE: string := "✓"
  const HEADER_SEP: string := " · "
  const HARD_BREAK: string := "  \n"

  const MAX_CMD_LEN: nat := 40
  const MAX_QUERY_LEN: nat := 60
  const MAX_PATH_LEN: nat := 40
  const MAX_PROGRESS_CHARS: nat := 300

  // ---------------------------------------------------------------------------
  // Formatters

  /** `" ".join(text.split())`: the same words, one space between them. */
  function OneLine(text: string): (r: string)
    ensures Text.Words(r) == Text.Words(text)
  {
    Text.WordsJoin(Text.Words(text));
    Text.Join(Text.Words(text), " ")
  }

  /** `one_line(text)[:max_len]`. */
  function Truncate(text: string, maxLen: nat): (r: string)
    ensures |r| <= maxLen && Text.StartsWith(OneLine(text), r)
    ensures |OneLine(text)| <= maxLen ==> r == OneLine(text)
  {
    var line := OneLine(text);
    if |line| <= maxLen then line else line[..maxLen]
  }

  /** `f"{n:02d}"` for a number below 100. */
  function Pad2(n: nat): (r: string)
    requires n < 100
    ensures |r| == 2 && Text.AllDigits(r) && Text.DigitsValue(r) == n
  {
    if n < 10 then
      var r := "0" + [Text.DigitChar(n)];
      assert r[..1] == "0" && Text.DigitsValue(r[..1]) == 0;
      r
    else
      Text.DigitsOfNat(n);
      Text.NatToString(n)
  }

  /** `format_elapsed` on `int(elapsed_s)`: seconds under a minute, minutes and
      seconds under an hour, else hours and minutes; negative times read as 0. */
  function FormatElapsed(elapsed: int): (r: string)
    ensures elapsed <= 0 ==> r == "0s"
    ensures r != [] && r[|r| - 1] == (if elapsed < 3600 then 's' else 'm')
  {
    var total: nat := if elapsed < 0 then 0 else elapsed;
    var minutes := total / 60;
    var seconds := total % 60;
    var hours := minutes / 60;
    var mins := minutes % 60;
    if hours > 0 then Text.NatToString(hours) + "h " + Pad2(mins) + "m"
    else if mins > 0 then Text.NatToString(mins) + "m " + Pad2(seconds) + "s"
    else Text.NatToString(seconds) + "s"
  }

  /** Reads `"<digits><unit>"`. */
  function ParseUnit(s: string, unit: char): Option<nat> {
    if |s| >= 2 && s[|s| - 1] == unit && Text.AllDigits(s[..|s| - 1]) then Some(Text.DigitsValue(s[..|s| - 1])) else None
  }

  /** Reads an elapsed time back: `"Ns"`, `"Mm SSs"` or `"Hh MMm"`, in seconds. */
  function ParseElapsed(r: string): Option<nat> {
    var parts := Text.Split(r, ' ');
    if |parts| == 1 then ParseUnit(parts[0], 's')
    else if |parts| == 2 then
      var minutes := ParseUnit(parts[0], 'm');
      var seconds := ParseUnit(parts[1], 's');
      var hours := ParseUnit(parts[0], 'h');
      var hourMinutes := ParseUnit(parts[1], 'm');
      if minutes.Some? && seconds.Some? then Some(minutes.value * 60 + seconds.value)
      else if hours.Some? && hourMinutes.Some? then Some(hours.value * 3600 + hourMinutes.value * 60)
      else None
    else None
  }

  lemma {:induction false} UnitOfNat(n: nat, unit: char)
    requires !('0' <= unit <= '9')
    ensures ParseUnit(Text.NatToString(n) + [unit], unit) == Some(n)
  {
    var s := Text.NatToString(n) + [unit];
    assert s[..|s| - 1] == Text.NatToString(n);
    Text.DigitsOfNat(n);
  }

  lemma {:induction false} UnitOfPad2(n: nat, unit: char)
    requires n < 100 && !('0' <= unit <= '9')
    ensures ParseUnit(Pad2(n) + [unit], unit) == Some(n)
  {
    var s := Pad2(n) + [unit];
    assert s[..|s| - 1] == Pad2(n);
  }

  /** A string without spaces splits into itself; two such strings joined by
      one space split back into the two. */
  lemma SplitSpaces(a: string, b: string)
    requires ' ' !in a && ' ' !in b
    ensures Text.Split(a, ' ') == [a]
    ensures Text.Split(a + " " + b, ' ') == [a, b]
  {
    Text.SplitJoin([a], ' ');
    Text.JoinCons(a, [b], " ");
    Text.SplitJoin([a, b], ' ');
  }

  /** The rendering is exact to the second below an hour and to the minute
      above: reading it back gives the (clamped) time, rounded down to whole
      minutes from one hour on. */
  lemma {:induction false} ElapsedRoundTrip(elapsed: int)
    ensures var total := if elapsed < 0 then 0 else elapsed;
            ParseElapsed(FormatElapsed(elapsed)) == Some(if total < 3600 then total else total / 60 * 60)
  {
    var total: nat := if elapsed < 0 then 0 else elapsed;
    if total >= 3600 {
      ElapsedHours(total);
    } else if total >= 60 {
      ElapsedMinutes(total);
    } else {
      var a := Text.NatToString(total) + "s";
      assert FormatElapsed(elapsed) == a;
      SplitSpaces(a, a);
      UnitOfNat(total, 's');
    }
  }

  lemma {:induction false} ElapsedHours(total: nat)
    requires total >= 3600
    ensures ParseElapsed(FormatElapsed(total)) == Some(total / 60 * 60)
  {
    var minutes := total / 60;
    var hours := minutes / 60;
    var mins := minutes % 60;
    assert hours > 0;
    assert FormatElapsed(total) == Text.NatToString(hours) + "h " + Pad2(mins) + "m";
    ParseHours(hours, mins);
    HoursAndMinutes(minutes);
  }

  /** `"Hh MMm"` reads back as `H` hours and `MM` minutes. */
  lemma {:induction false} ParseHours(h: nat, m: nat)
    requires m < 60
    ensures ParseElapsed(Text.NatToString(h) + "h " + Pad2(m) + "m") == Some(h * 3600 + m * 60)
  {
    var a := Text.NatToString(h) + "h";
    var b := Pad2(m) + "m";
    Text.AppendAssoc(a, " ", b);
    assert Text.NatToString(h) + "h " + Pad2(m) + "m" == a + " " + b;
    SplitSpaces(a, b);
    UnitOfNat(h, 'h');
    UnitOfPad2(m, 'm');
    assert ParseUnit(a, 'm') == None;
  }

  lemma {:induction false} HoursAndMinutes(minutes: nat)
    ensures (minutes / 60) * 3600 + (minutes % 60) * 60 == minutes * 60
  {
    var h := minutes / 60;
    var m := minutes % 60;
    assert minutes == h * 60 + m;
    assert (h * 60 + m) * 60 == h * 3600 + m * 60;
  }

  lemma {:induction false} ElapsedMinutes(total: nat)
    requires 60 <= total < 3600
    ensures ParseElapsed(FormatElapsed(total)) == Some(total)
  {
    var mins := total / 60;
    var seconds := total % 60;
    assert 0 < mins < 60 && mins / 60 == 0 && mins % 60 == mins;
    assert FormatElapsed(total) == Text.NatToString(mins) + "m " + Pad2(seconds) + "s";
    ParseMinutes(mins, seconds);
  }

  /** `"Mm SSs"` reads back as `M` minutes and `SS` seconds. */
  lemma {:induction false} ParseMinutes(m: nat, s: nat)
    requires s < 60
    ensures ParseElapsed(Text.NatToString(m) + "m " + Pad2(s) + "s") == Some(m * 60 + s)
  {
    var a := Text.NatToString(m) + "m";
    var b := Pad2(s) + "s";
    Text.AppendAssoc(a, " ", b);
    assert Text.NatToString(m) + "m " + Pad2(s) + "s" == a + " " + b;
    SplitSpaces(a, b);
    UnitOfNat(m, 'm');
    UnitOfPad2(s, 's');
  }

  /** `format_header`: the label, the elapsed time and, when known, the turn. */
  function FormatHeader(elapsed: int, turn: Option<Json.Value>, name: string): (r: string)
    ensures Text.StartsWith(r, name + HEADER_SEP + FormatElapsed(elapsed))
  {
    var base := name + HEADER_SEP + FormatElapsed(elapsed);
    if turn.Some? then base + HEADER_SEP + "turn " + Json.ToStr(turn.value) else base
  }

  /** `"`path`"` for each path, truncated, joined by `", "`. */
  function QuotedPaths(paths: seq<Json.Value>): (r: seq<string>)
    ensures |r| == |paths|
    ensures forall i :: 0 <= i < |r| ==> r[i] == "`" + Truncate(Json.ToStr(paths[i]), MAX_PATH_LEN) + "`"
  {
    if paths == [] then [] else ["`" + Truncate(Json.ToStr(paths[0]), MAX_PATH_LEN) + "`"] + QuotedPaths(paths[1..])
  }

  /** `format_file_change`: up to three changed paths are listed, more are
      counted; without paths, the changes are counted. */
  function FormatFileChange(changes: Json.Value): string {
    var items := if changes.Arr? then changes.items else [];
    var paths := Codex.TruthyPaths(items);
    if paths == [] then (if items == [] then "updated files" else "updated " + Text.NatToString(|items|) + " files")
    else if |paths| <= 3 then "updated " + Text.Join(QuotedPaths(paths), ", ")
    else "updated " + Text.NatToString(|paths|) + " files"
  }

  /** The three shapes of a file change line. */
  lemma FileChangeCases(changes: seq<Json.Value>)
    ensures changes == [] ==> FormatFileChange(Json.Arr(changes)) == "updated files"
    ensures |Codex.TruthyPaths(changes)| > 3 ==>
      FormatFileChange(Json.Arr(changes)) == "updated " + Text.NatToString(|Codex.TruthyPaths(changes)|) + " files"
    ensures |Codex.TruthyPaths(changes)| == 1 ==>
      FormatFileChange(Json.Arr(changes)) == "updated `" + Truncate(Json.ToStr(Codex.TruthyPaths(changes)[0]), MAX_PATH_LEN) + "`"
  {
    var paths := Codex.TruthyPaths(changes);
    if |paths| == 1 {
      OneFileChange(changes, paths);
    }
  }

  lemma OneFileChange(changes: seq<Json.Value>, paths: seq<Json.Value>)
    requires paths == Codex.TruthyPaths(changes) && |paths| == 1
    ensures FormatFileChange(Json.Arr(changes)) == "updated `" + Truncate(Json.ToStr(paths[0]), MAX_PATH_LEN) + "`"
  {
    var quoted := "`" + Truncate(Json.ToStr(paths[0]), MAX_PATH_LEN) + "`";
    assert QuotedPaths(paths) == [quoted];
    assert Text.Join([quoted], ", ") == quoted;
    assert "updated " + quoted == "updated `" + Truncate(Json.ToStr(paths[0]), MAX_PATH_LEN) + "`";
  }

  /** A line under the running marker. */
  function RunningLine(rest: string): (r: string)
    ensures Text.StartsWith(r, STATUS_RUNNING + " ")
  {
    var r := STATUS_RUNNING + " " + rest;
    assert r[..|STATUS_RUNNING + " "|] == STATUS_RUNNING + " ";
    r
  }

  /** A line under the done marker. */
  function DoneLine(rest: string): (r: string)
    ensures Text.StartsWith(r, STATUS_DONE + " ")
  {
    var r := STATUS_DONE + " " + rest;
    assert r[..|STATUS_DONE + " "|] == STATUS_DONE + " ";
    r
  }

  /** `format_item_line`: the line an item event shows, when it shows one. */
  function FormatItemLine(etype: string, item: Json.Fields): (r: Option<string>)
    ensures r.Some? ==> etype in {"item.started", "item.completed"}
    ensures r.Some? && etype == "item.started" ==> Text.StartsWith(r.value, STATUS_RUNNING + " ")
    ensures r.Some? && etype == "item.completed" && Json.GetV(item, "type") != Json.Str("reasoning") ==>
      Text.StartsWith(r.value, STATUS_DONE + " ")
  {
    var itype := Json.GetV(item, "type");
    if itype == Json.Str("reasoning") && etype == "item.completed" then Some(Json.ToStr(Json.GetV(item, "text")))
    else if itype == Json.Str("command_execution") && etype == "item.started" then
      Some(RunningLine("running: `" + Truncate(Json.ToStr(Json.GetV(item, "command")), MAX_CMD_LEN) + "`"))
    else if itype == Json.Str("command_execution") && etype == "item.completed" then
      var exitCode := Json.GetV(item, "exit_code");
      var exitPart := if exitCode.Null? then "" else " (exit " + Json.ToStr(exitCode) + ")";
      Some(DoneLine("ran: `" + Truncate(Json.ToStr(Json.GetV(item, "command")), MAX_CMD_LEN) + "`" + exitPart))
    else if itype == Json.Str("mcp_tool_call") && etype == "item.started" then
      Some(RunningLine("tool: " + Codex.ShortToolName(item)))
    else if itype == Json.Str("mcp_tool_call") && etype == "item.completed" then
      Some(DoneLine("tool: " + Codex.ShortToolName(item)))
    else if itype == Json.Str("web_search") && etype == "item.completed" then
      Some(DoneLine("searched: " + Truncate(Json.ToStr(Json.GetV(item, "query")), MAX_QUERY_LEN)))
    else if itype == Json.Str("file_change") && etype == "item.completed" then
      Some(DoneLine(FormatFileChange(Json.GetV(item, "changes"))))
    else if itype == Json.Str("error") && etype == "item.completed" then
      Some(DoneLine("warning: " + Truncate(Json.ToStr(Json.GetV(item, "message")), 120)))
    else None
  }

  /** `is_command_log_line`: a running or finished command. */
  predicate IsCommandLogLine(line: string) {
    Text.Contains(line, STATUS_RUNNING + " running:") || Text.Contains(line, STATUS_DONE + " ran:")
  }

  /** A digit. */
  predicate IsDigit(c: char) {
    '0' <= c <= '9'
  }

  /** Length of the leading run of digits. */
  function LeadingDigits(s: string): (n: nat)
    ensures n <= |s| && Text.AllDigits(s[..n]) && (n == |s| || !IsDigit(s[n]))
  {
    if s == [] || !IsDigit(s[0]) then 0
    else
      var n := 1 + LeadingDigits(s[1..]);
      assert s[..n] == [s[0]] + s[1..][..n - 1];
      n
  }

  /** The first maximal run of digits in `s`: what `(?:item_)?(\d+)` captures
      at its leftmost match, since `item_` holds no digit. */
  function DigitRun(s: string): (r: Option<string>)
    ensures r.None? <==> forall i :: 0 <= i < |s| ==> !IsDigit(s[i])
    ensures r.Some? ==> r.value != [] && Text.AllDigits(r.value)
  {
    if s == [] then None
    else if IsDigit(s[0]) then Some(s[..LeadingDigits(s)])
    else
      var r := DigitRun(s[1..]);
      assert forall i :: 1 <= i < |s| ==> s[i] == s[1..][i - 1];
      r
  }

  /** `extract_numeric_id`: an integer (a bool counts as one) is kept, a
      string gives the number of its first run of digits, anything else or a
      string without digits gives the fallback. */
  function ExtractNumericId(itemId: Json.Value, fallback: Option<Json.Value>): (r: Option<Json.Value>)
    ensures itemId.Int? || itemId.Bool? ==> r == Some(itemId)
    ensures itemId.Str? && DigitRun(itemId.s).Some? ==> r == Some(Json.Int(Text.DigitsValue(DigitRun(itemId.s).value)))
    ensures !(itemId.Int? || itemId.Bool?) && !(itemId.Str? && DigitRun(itemId.s).Some?) ==> r == fallback
  {
    if itemId.Int? || itemId.Bool? then Some(itemId)
    else if itemId.Str? then
      match DigitRun(itemId.s)
      case Some(digits) => Some(Json.Int(Text.DigitsValue(digits)))
      case None => fallback
    else fallback
  }

  lemma {:induction false} DigitRunAfter(prefix: string, digits: string, suffix: string)
    requires forall i :: 0 <= i < |prefix| ==> !IsDigit(prefix[i])
    requires digits != [] && Text.AllDigits(digits)
    requires suffix == [] || !IsDigit(suffix[0])
    ensures DigitRun(prefix + digits + suffix) == Some(digits)
    decreases |prefix|
  {
    var s := prefix + digits + suffix;
    if prefix == [] {
      assert s == digits + suffix;
      LeadingDigitsOf(digits, suffix);
      assert s[..|digits|] == digits;
    } else {
      assert s[0] == prefix[0];
      assert s[1..] == prefix[1..] + digits + suffix;
      DigitRunAfter(prefix[1..], digits, suffix);
    }
  }

  lemma {:induction false} LeadingDigitsOf(digits: string, suffix: string)
    requires Text.AllDigits(digits)
    requires suffix == [] || !IsDigit(suffix[0])
    ensures LeadingDigits(digits + suffix) == |digits|
    decreases |digits|
  {
    if digits != [] {
      assert (digits + suffix)[1..] == digits[1..] + suffix;
      LeadingDigitsOf(digits[1..], suffix);
    } else {
      assert digits + suffix == suffix;
    }
  }

  /** An item id such as `"item_12"`: a prefix without digits, the number,
      and a rest that does not start with a digit gives back the number. */
  lemma {:induction false} NumericIdRoundTrip(prefix: string, n: nat, suffix: string, fallback: Option<Json.Value>)
    requires forall i :: 0 <= i < |prefix| ==> !IsDigit(prefix[i])
    requires suffix == [] || !IsDigit(suffix[0])
    ensures ExtractNumericId(Json.Str(prefix + Text.NatToString(n) + suffix), fallback) == Some(Json.Int(n))
  {
    DigitRunAfter(prefix, Text.NatToString(n), suffix);
    Text.DigitsOfNat(n);
  }

  /** `attach_id`: the line tagged with the item number, or `?`. */
  function AttachId(itemId: Option<Json.Value>, line: string): (r: string)
    ensures Text.EndsWith(r, "] " + line)
  {
    var r := "[" + (if itemId.Some? then Json.ToStr(itemId.value) else "?") + "] " + line;
    assert r[|r| - |"] " + line|..] == "] " + line;
    r
  }

  /** The prefix by which `note_event` recognises the running line of an item,
      as written: `f"[{item_id}] ▸ "`, which reads `None` where `attach_id`
      wrote `?`. */
  function RunningPrefixAsWritten(itemId: Option<Json.Value>): (r: string)
    ensures itemId.Some? ==> r == RunningPrefix(itemId)
    ensures itemId.None? ==> forall rest :: !Text.StartsWith(AttachId(None, STATUS_RUNNING + " " + rest), r)
  {
    var r := "[" + (if itemId.Some? then Json.ToStr(itemId.value) else "None") + "] " + STATUS_RUNNING + " ";
    assert r[1] == (if itemId.Some? then r[1] else 'N');
    assert forall rest :: AttachId(None, STATUS_RUNNING + " " + rest)[1] == '?';
    r
  }

  /** The prefix of the running line of an item, as `attach_id` writes it. */
  function RunningPrefix(itemId: Option<Json.Value>): (r: string)
    ensures forall rest :: Text.StartsWith(AttachId(itemId, STATUS_RUNNING + " " + rest), r)
  {
    var r := AttachId(itemId, STATUS_RUNNING + " ");
    assert forall rest :: AttachId(itemId, STATUS_RUNNING + " " + rest) == r + rest;
    r
  }

  /** The two prefixes differ only for an item without a number. */
  lemma RunningPrefixAgrees(itemId: Json.Value)
    ensures RunningPrefixAsWritten(Some(itemId)) == RunningPrefix(Some(itemId))
  {
  }

  /** As written, the running line of an item without a number is never
      recognised, so its completion line is added beside it. */
  lemma RunningLineMissedAsWritten(rest: string)
    ensures !Text.StartsWith(AttachId(None, STATUS_RUNNING + " " + rest), RunningPrefixAsWritten(None))
  {
    var line := AttachId(None, STATUS_RUNNING + " " + rest);
    assert line[1] == '?';
    assert RunningPrefixAsWritten(None)[1] == 'N';
  }

  // ---------------------------------------------------------------------------
  // The progress renderer

  /** `deque.append` on a deque of maximum length `maxLen`: the oldest entry
      goes when the deque is full. */
  function Push(q: seq<string>, x: string, maxLen: nat): (r: seq<string>)
    ensures |r| == if |q| + 1 <= maxLen then |q| + 1 else maxLen
    ensures maxLen > 0 ==> r[|r| - 1] == x
    ensures forall i :: 0 <= i < |r| - 1 ==> r[i] == q[|q| + 1 - |r| + i]
  {
    var all := q + [x];
    if |all| <= maxLen then all else all[|all| - maxLen..]
  }

  /** The renderer's state, as a value. */
  datatype RenderSnap = RenderSnap(recent: seq<string>, lastTurn: Option<Json.Value>)

  /** `event["item"]`, read as a dict. */
  function ItemOf(event: Json.Fields): Json.Fields {
    var item := Json.GetV(event, "item");
    if item.Obj? then item.fields else []
  }

  predicate IsItemEvent(etype: Json.Value) {
    etype == Json.Str("item.started") || etype == Json.Str("item.updated") || etype == Json.Str("item.completed")
  }

  /** The turn after `record_item`: the item's own number when it has one. */
  function RecordItem(item: Json.Fields, lastTurn: Option<Json.Value>): Option<Json.Value> {
    match ExtractNumericId(Json.GetV(item, "id"), None)
    case Some(n) => Some(n)
    case None => lastTurn
  }

  /** The recent lines kept when `full` arrives: a completion drops the last
      line when it starts with the running prefix as `note_event` writes it. */
  function Kept(recent: seq<string>, completed: bool, itemId: Option<Json.Value>): (r: seq<string>)
    ensures r == recent || (recent != [] && r == recent[..|recent| - 1])
  {
    if completed && recent != [] && Text.StartsWith(recent[|recent| - 1], RunningPrefixAsWritten(itemId)) then recent[..|recent| - 1]
    else recent
  }

  /** The recent lines kept as intended: a completion drops the running line
      of the same item, as `attach_id` wrote it, when that is the last line. */
  function KeptIntended(recent: seq<string>, completed: bool, itemId: Option<Json.Value>): (r: seq<string>)
    ensures r == recent || (recent != [] && r == recent[..|recent| - 1])
  {
    if completed && recent != [] && Text.StartsWith(recent[|recent| - 1], RunningPrefix(itemId)) then recent[..|recent| - 1]
    else recent
  }

  /** For an item with a number, the lines kept as written are the intended ones. */
  lemma KeptAgrees(recent: seq<string>, completed: bool, itemId: Json.Value)
    ensures Kept(recent, completed, Some(itemId)) == KeptIntended(recent, completed, Some(itemId))
  {
    RunningPrefixAgrees(itemId);
  }

  /** As written, the completion of an item without a number keeps that
      item's running line, where the intended rule drops it. */
  lemma IdlessRunningLineKept(recent: seq<string>, rest: string)
    requires recent != [] && recent[|recent| - 1] == AttachId(None, STATUS_RUNNING + " " + rest)
    ensures Kept(recent, true, None) == recent
    ensures KeptIntended(recent, true, None) == recent[..|recent| - 1]
  {
    RunningLineMissedAsWritten(rest);
  }

  /** `note_event`: whether the event changes the progress message, and the
      new state. Only item events touch the state, the deque never grows past
      `maxActions`, and an agent message never shows. */
  function NoteStep(event: Json.Fields, s: RenderSnap, maxActions: nat): (r: (bool, RenderSnap))
    requires |s.recent| <= maxActions
    ensures |r.1.recent| <= maxActions
    ensures !IsItemEvent(Json.GetV(event, "type")) ==>
      r.1 == s && (r.0 <==> Json.GetV(event, "type") in {Json.Str("thread.started"), Json.Str("turn.started")})
    ensures Json.GetV(ItemOf(event), "type") == Json.Str("agent_message") ==> r.1.recent == s.recent
    ensures IsItemEvent(Json.GetV(event, "type")) ==>
      (r.0 <==> Json.GetV(ItemOf(event), "type") != Json.Str("agent_message")
                && FormatItemLine(Json.GetV(event, "type").s, ItemOf(event)).Some?)
    ensures !r.0 ==> r.1.recent == s.recent
  {
    var etype := Json.GetV(event, "type");
    if etype == Json.Str("thread.started") || etype == Json.Str("turn.started") then (true, s)
    else if IsItemEvent(etype) then
      var item := ItemOf(event);
      var lastTurn := RecordItem(item, s.lastTurn);
      var itemId := ExtractNumericId(Json.GetV(item, "id"), lastTurn);
      var s1 := s.(lastTurn := lastTurn);
      if Json.GetV(item, "type") == Json.Str("agent_message") then (false, s1)
      else
        match FormatItemLine(etype.s, item)
        case None => (false, s1)
        case Some(line) =>
          var full := AttachId(itemId, line);
          (true, s1.(recent := Push(Kept(s.recent, etype == Json.Str("item.completed"), itemId), full, maxActions)))
    else (false, s)
  }

  /** An item event that shows a line pushes it, tagged with the item's
      number, after the kept lines. */
  lemma NoteStepShowsLine(event: Json.Fields, s: RenderSnap, maxActions: nat)
    requires |s.recent| <= maxActions && IsItemEvent(Json.GetV(event, "type"))
    requires Json.GetV(ItemOf(event), "type") != Json.Str("agent_message")
    requires FormatItemLine(Json.GetV(event, "type").s, ItemOf(event)).Some?
    ensures var item := ItemOf(event);
            var itemId := ExtractNumericId(Json.GetV(item, "id"), RecordItem(item, s.lastTurn));
            var full := AttachId(itemId, FormatItemLine(Json.GetV(event, "type").s, item).value);
            NoteStep(event, s, maxActions)
              == (true, RenderSnap(Push(Kept(s.recent, Json.GetV(event, "type") == Json.Str("item.completed"), itemId),
                                        full, maxActions),
                                   RecordItem(item, s.lastTurn)))
  {
  }

  /** An item event that shows nothing records the item's turn and leaves the lines. */
  lemma NoteStepHidden(event: Json.Fields, s: RenderSnap, maxActions: nat)
    requires |s.recent| <= maxActions && IsItemEvent(Json.GetV(event, "type"))
    requires Json.GetV(ItemOf(event), "type") == Json.Str("agent_message")
             || FormatItemLine(Json.GetV(event, "type").s, ItemOf(event)).None?
    ensures NoteStep(event, s, maxActions) == (false, s.(lastTurn := RecordItem(ItemOf(event), s.lastTurn)))
  {
  }

  /** As intended, the completion of an item whose running line is the last
      line takes that line's place, and the lines before stay; any other
      shown line is added after the others, dropping the oldest when the
      deque is full. */
  lemma CompletionReplacesRunning(recent: seq<string>, itemId: Option<Json.Value>, full: string, maxActions: nat)
    requires |recent| <= maxActions && maxActions > 0
    ensures var r := Push(KeptIntended(recent, true, itemId), full, maxActions);
            && r[|r| - 1] == full
            && (recent != [] && Text.StartsWith(recent[|recent| - 1], RunningPrefix(itemId)) ==>
                  r == recent[..|recent| - 1] + [full])
            && (!(recent != [] && Text.StartsWith(recent[|recent| - 1], RunningPrefix(itemId))) ==>
                  r == Push(recent, full, maxActions))
  {
    var kept := KeptIntended(recent, true, itemId);
    if recent != [] && Text.StartsWith(recent[|recent| - 1], RunningPrefix(itemId)) {
      var r := Push(kept, full, maxActions);
      assert kept == recent[..|recent| - 1];
      assert |r| == |recent|;
      assert forall i :: 0 <= i < |r| - 1 ==> r[i] == kept[i];
    }
  }

  /** As written, the completion of an item with a number takes the place of
      that item's running line when it is the last line. */
  lemma CompletionReplacesNumberedRunning(recent: seq<string>, itemId: Json.Value, rest: string, full: string, maxActions: nat)
    requires |recent| <= maxActions && maxActions > 0
    requires recent != [] && recent[|recent| - 1] == AttachId(Some(itemId), STATUS_RUNNING + " " + rest)
    ensures Push(Kept(recent, true, Some(itemId)), full, maxActions) == recent[..|recent| - 1] + [full]
  {
    KeptAgrees(recent, true, itemId);
    CompletionReplacesRunning(recent, Some(itemId), full, maxActions);
  }

  /** The lines of the final message: command lines are dropped once done. */
  function FinalLines(recent: seq<string>, status: string): (r: seq<string>)
    ensures status != "done" ==> r == recent
    ensures status == "done" ==> forall i :: 0 <= i < |r| ==> !IsCommandLogLine(r[i])
    ensures forall i :: 0 <= i < |r| ==> r[i] in recent
    ensures status == "done" ==> forall i :: 0 <= i < |recent| && !IsCommandLogLine(recent[i]) ==> recent[i] in r
  {
    if status != "done" then recent
    else if recent == [] then []
    else
      var rest := FinalLines(recent[1..], status);
      assert forall i :: 1 <= i < |recent| ==> recent[i] == recent[1..][i - 1];
      if IsCommandLogLine(recent[0]) then rest else [recent[0]] + rest
  }

  /** `_assemble`: the header, then the lines joined by hard breaks. */
  function Assemble(header: string, lines: seq<string>): (r: string)
    ensures Text.StartsWith(r, header)
    ensures r == header <==> lines == []
  {
    if lines == [] then header
    else
      var r := header + "\n\n" + Text.Join(lines, HARD_BREAK);
      assert r[..|header|] == header;
      r
  }

  /** The body followed by the stripped answer after a blank line, unless the
      answer is blank. */
  function WithAnswer(body: string, answer: string): (r: string)
    ensures Text.StartsWith(r, body)
    ensures Text.Strip(answer) == [] ==> r == body
    ensures Text.Strip(answer) != [] ==> Text.EndsWith(r, "\n\n" + Text.Strip(answer))
  {
    var stripped := Text.Strip(answer);
    if stripped != [] then
      var r := body + "\n\n" + stripped;
      assert r[..|body|] == body;
      assert r[|r| - |"\n\n" + stripped|..] == "\n\n" + stripped;
      r
    else body
  }

  /** `ExecProgressRenderer`. */
  class ExecProgressRenderer {
    const maxActions: nat
    const maxChars: int
    var recentActions: seq<string>
    var lastTurn: Option<Json.Value>

    predicate Valid()
      reads this
    {
      |recentActions| <= maxActions
    }

    function Snapshot(): RenderSnap
      reads this
    {
      RenderSnap(recentActions, lastTurn)
    }

    constructor (maxActions: nat, maxChars: int)
      ensures Valid() && this.maxActions == maxActions && this.maxChars == maxChars
      ensures recentActions == [] && lastTurn.None?
    {
      this.maxActions := maxActions;
      this.maxChars := maxChars;
      recentActions := [];
      lastTurn := None;
    }

    /** `note_event`, updating the deque and the last turn in place. */
    method NoteEvent(event: Json.Fields) returns (changed: bool)
      requires Valid()
      modifies this
      ensures Valid()
      ensures (changed, Snapshot()) == NoteStep(event, old(Snapshot()), maxActions)
    {
      ghost var s0 := Snapshot();
      var etype := Json.GetV(event, "type");
      if etype == Json.Str("thread.started") || etype == Json.Str("turn.started") {
        return true;
      }
      if !IsItemEvent(etype) {
        return false;
      }
      var item := ItemOf(event);
      var numericId := ExtractNumericId(Json.GetV(item, "id"), None);
      if numericId.Some? {
        lastTurn := numericId;
      }
      assert lastTurn == RecordItem(item, s0.lastTurn);
      var itemId := ExtractNumericId(Json.GetV(item, "id"), lastTurn);
      if Json.GetV(item, "type") == Json.Str("agent_message") {
        NoteStepHidden(event, s0, maxActions);
        return false;
      }
      var line := FormatItemLine(etype.s, item);
      if line.None? {
        NoteStepHidden(event, s0, maxActions);
        return false;
      }
      var full := AttachId(itemId, line.value);
      if etype == Json.Str("item.completed") && recentActions != [] {
        var last := recentActions[|recentActions| - 1];
        if Text.StartsWith(last, RunningPrefixAsWritten(itemId)) {
          recentActions := recentActions[..|recentActions| - 1];
        }
      }
      assert recentActions == Kept(s0.recent, etype == Json.Str("item.completed"), itemId);
      recentActions := Push(recentActions, full, maxActions);
      NoteStepShowsLine(event, s0, maxActions);
      return true;
    }

    /** `render_progress`: the header and the recent lines, or the header
        alone when that would exceed `maxChars`. */
    function RenderProgress(elapsed: int): (r: string)
      reads this
      ensures var header := FormatHeader(elapsed, lastTurn, "working");
              && Text.StartsWith(r, header)
              && (|r| <= maxChars || r == header)
              && (r == Assemble(header, recentActions) <==> |Assemble(header, recentActions)| <= maxChars || recentActions == [])
    {
      var header := FormatHeader(elapsed, lastTurn, "working");
      var message := Assemble(header, recentActions);
      if |message| <= maxChars then message else header
    }

    /** `render_final`: the header with the status as label, the kept lines,
        and the stripped answer after a blank line when it is not blank. */
    function RenderFinal(elapsed: int, answer: string, status: string): (r: string)
      reads this
      ensures var body := Assemble(FormatHeader(elapsed, lastTurn, status), FinalLines(recentActions, status));
              && Text.StartsWith(r, body)
              && (Text.Strip(answer) == [] ==> r == body)
              && (Text.Strip(answer) != [] ==> Text.EndsWith(r, "\n\n" + Text.Strip(answer)))
    {
      WithAnswer(Assemble(FormatHeader(elapsed, lastTurn, status), FinalLines(recentActions, status)), answer)
    }
  }
}

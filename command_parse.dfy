/** Recognising slash commands in chat text. */
module CommandParse {
  import opened Wrappers
  import Text

  /** `/cancel`, or `/cancel` addressed to a bot. */
  predicate IsCancelWord(w: string) {
    w == "/cancel" || Text.StartsWith(w, "/cancel@")
  }

  /** `is_cancel_command`: the first word of the text is a cancel word. */
  predicate IsCancelCommand(text: string) {
    CancelStripped(Text.Strip(text))
  }

  predicate CancelStripped(stripped: string) {
    if stripped == [] then false
    else
      var words := Text.Words(stripped);
      words != [] && IsCancelWord(words[0])
  }

  /** Blank text is never a cancel command. */
  lemma BlankIsNotCancel(text: string)
    requires Text.AllSpace(text)
    ensures !IsCancelCommand(text)
  {
  }

  lemma CancelStrippedFirstWord(w: string, rest: string)
    requires w != [] && Text.NoSpace(w)
    requires rest == [] || Text.IsSpace(rest[0])
    ensures CancelStripped(w + rest) <==> IsCancelWord(w)
  {
    Text.WordsPrefix(w, rest);
  }

  /** A message whose first word is `w` is a cancel command exactly when `w`
      is `/cancel` or `/cancel@bot`, whatever whitespace precedes it and
      whatever words follow. */
  lemma CancelByFirstWord(sp: string, w: string, rest: string)
    requires Text.AllSpace(sp) && w != [] && Text.NoSpace(w)
    requires rest == [] || (Text.IsSpace(rest[0]) && !Text.IsSpace(rest[|rest| - 1]))
    ensures IsCancelCommand(sp + w + rest) <==> IsCancelWord(w)
  {
    var body := w + rest;
    assert body != [] && !Text.IsSpace(body[0]) && !Text.IsSpace(body[|body| - 1]) by {
      assert body[0] == w[0];
      assert body[|body| - 1] == if rest == [] then w[|w| - 1] else rest[|rest| - 1];
    }
    assert sp + w + rest == sp + body;
    assert Text.Strip(sp + body) == body by { Text.StripLeading(sp, body); }
    CancelStrippedFirstWord(w, rest);
  }

  /** Python's `s[1:]`: empty for an empty string. */
  function Tail(s: string): (r: string)
    ensures s != [] ==> r == s[1..]
  {
    if s == [] then [] else s[1..]
  }

  /** `str.partition(" ")`: the text before the first space, and the text after it. */
  function PartitionSpace(s: string): (r: (string, string))
    ensures ' ' !in r.0
    ensures ' ' in s ==> s == r.0 + " " + r.1
    ensures ' ' !in s ==> r == (s, [])
  {
    match Text.IndexOf(s, ' ')
    case Some(k) =>
      assert s == s[..k] + " " + s[k + 1..];
      (s[..k], s[k + 1..])
    case None => (s, [])
  }

  /** The text before the first `@`, all of it when there is none. */
  function BeforeAt(s: string): (r: string)
    ensures '@' !in r
    ensures '@' !in s ==> r == s
    ensures '@' in s ==> |r| < |s| && s[..|r| + 1] == r + "@"
  {
    match Text.IndexOf(s, '@')
    case Some(k) =>
      assert s[..k + 1] == s[..k] + "@";
      s[..k]
    case None => s
  }

  /** `_parse_slash_command`: the lower-cased command name without its
      `@bot` suffix, and the arguments: the rest of the first line, then the
      later lines. Text that is not a slash command comes back unchanged. */
  function ParseSlashCommand(text: string): (r: (Option<string>, string))
    ensures r.0.None? ==> r.1 == text
    ensures r.0.Some? ==> '@' !in r.0.value
    ensures !Text.StartsWith(Text.LStrip(text), "/") ==> r == (None, text)
    ensures r.0.Some? ==> Text.StartsWith(Text.LStrip(text), "/")
  {
    var stripped := Text.LStrip(text);
    if !Text.StartsWith(stripped, "/") then (None, text)
    else ParseCommandLines(Text.SplitLines(stripped), text)
  }

  /** The lines of a text that starts with `/`. */
  function ParseCommandLines(lines: seq<string>, text: string): (r: (Option<string>, string))
    ensures r.0.None? ==> r.1 == text
    ensures r.0.Some? ==> '@' !in r.0.value
  {
    if lines == [] then (None, text)
    else
      var (token, rest) := PartitionSpace(lines[0]);
      var command0 := Tail(token);
      if command0 == [] then (None, text)
      else
        var command := BeforeAt(command0);
        var args := if |lines| > 1 then
                      var tail := Text.Join(lines[1..], "\n");
                      if rest != [] then rest + "\n" + tail else tail
                    else rest;
        LowerKeepsNoAt(command);
        (Some(Text.Lower(command)), args)
  }

  /** Lower-casing adds no `@`. */
  lemma LowerKeepsNoAt(s: string)
    requires '@' !in s
    ensures '@' !in Text.Lower(s)
  {
    var lo := Text.Lower(s);
    forall i | 0 <= i < |lo| ensures lo[i] != '@' {
      assert s[i] != '@';
    }
  }

  /** Partitioning at the first space of `word + " " + args`. */
  lemma PartitionAfterWord(word: string, args: string)
    requires ' ' !in word
    ensures PartitionSpace(word + " " + args) == (word, args)
  {
    var t := word + " " + args;
    assert Text.IndexOf(t, ' ') == Some(|word|) by {
      assert t[..|word|] == word;
      assert t[|word|] == ' ';
    }
    assert t[..|word|] == word && t[|word| + 1..] == args;
  }

  /** A bot suffix `@bot` is cut off the command name. */
  lemma BotSuffixCut(name: string, suffix: string)
    requires '@' !in name
    requires suffix == [] || suffix[0] == '@'
    ensures BeforeAt(name + suffix) == name
  {
    var c := name + suffix;
    if suffix == [] {
      assert c == name;
    } else {
      assert Text.IndexOf(c, '@') == Some(|name|) by {
        assert c[..|name|] == name;
        assert c[|name|] == '@';
      }
      assert c[..|name|] == name;
    }
  }

  /** The word `/name` or `/name@bot` followed by a space and the arguments. */
  lemma OneLineCommand(name: string, suffix: string, args: string)
    requires name != [] && '@' !in name
    requires suffix == [] || suffix[0] == '@'
    requires ' ' !in name + suffix
    ensures ParseCommandLines(["/" + name + suffix + " " + args], "/" + name + suffix + " " + args) == (Some(Text.Lower(name)), args)
  {
    var word := "/" + name + suffix;
    assert ' ' !in word by {
      forall i | 0 <= i < |word| ensures word[i] != ' ' {
        if i > 0 { assert word[i] == (name + suffix)[i - 1]; }
      }
    }
    PartitionAfterWord(word, args);
    assert Tail(word) == name + suffix;
    BotSuffixCut(name, suffix);
    CommandLineParts(word, name, args);
  }

  lemma CommandLineParts(word: string, name: string, args: string)
    requires PartitionSpace(word + " " + args) == (word, args)
    requires Tail(word) != [] && BeforeAt(Tail(word)) == name
    ensures ParseCommandLines([word + " " + args], word + " " + args) == (Some(Text.Lower(name)), args)
  {
  }

  /** A text with no line break that starts with `/` is a single command line. */
  lemma SlashLine(t: string)
    requires t != [] && t[0] == '/'
    requires forall i :: 0 <= i < |t| ==> !Text.IsLineBreak(t[i])
    ensures ParseSlashCommand(t) == ParseCommandLines([t], t)
  {
    assert Text.LStrip(t) == t by {
      Text.LStripLeading([], t);
      assert [] + t == t;
    }
    assert t[..1] == "/";
    Text.SplitLinesNoBreak(t);
  }

  /** A bare `/`, followed by nothing, a space or a line break, is not a
      command: the text comes back unchanged. */
  lemma BareSlash(sp: string, rest: string)
    requires Text.AllSpace(sp)
    requires rest == [] || rest[0] == ' ' || Text.IsLineBreak(rest[0])
    ensures ParseSlashCommand(sp + "/" + rest) == (None, sp + "/" + rest)
  {
    var t := "/" + rest;
    assert sp + "/" + rest == sp + t;
    assert Text.LStrip(sp + t) == t by {
      Text.LStripLeading(sp, t);
    }
    assert t[..1] == "/";
    var line := FirstLine(t);
    assert PartitionSpace(line).0 == "/" by {
      SlashToken(t, rest, line);
    }
  }

  /** The first line of a text that does not start with a line break. */
  function FirstLine(t: string): (line: string)
    requires t != [] && !Text.IsLineBreak(t[0])
    ensures Text.SplitLines(t) != [] && Text.SplitLines(t)[0] == line
    ensures line != [] && line[0] == t[0] && Text.StartsWith(t, line)
    ensures |line| < |t| ==> Text.IsLineBreak(t[|line|])
  {
    var e := Text.LineEnd(t);
    t[..e.0]
  }

  lemma SlashToken(t: string, rest: string, line: string)
    requires t == "/" + rest && line == FirstLine(t)
    requires rest == [] || rest[0] == ' ' || Text.IsLineBreak(rest[0])
    ensures PartitionSpace(line).0 == "/"
  {
    if |line| == 1 {
      assert line == "/";
    } else {
      assert line[1] == rest[0] && !Text.IsLineBreak(line[1]);
      var k := Text.IndexOf(line, ' ');
      assert k == Some(1) by {
        assert line[..1] == "/";
      }
      assert line[..1] == "/";
    }
  }

  /** A one-line command: `/name args` or `/name@bot args` gives the
      lower-cased name and the arguments. */
  lemma SlashCommandOneLine(name: string, suffix: string, args: string)
    requires name != [] && '@' !in name
    requires suffix == [] || suffix[0] == '@'
    requires forall i :: 0 <= i < |name + suffix| ==> !Text.IsSpace((name + suffix)[i])
    requires forall i :: 0 <= i < |args| ==> !Text.IsLineBreak(args[i])
    ensures ParseSlashCommand("/" + name + suffix + " " + args) == (Some(Text.Lower(name)), args)
  {
    var word := "/" + name + suffix;
    var t := word + " " + args;
    assert forall i :: 0 <= i < |t| ==> !Text.IsLineBreak(t[i]) by {
      forall i | 0 <= i < |t|
        ensures !Text.IsLineBreak(t[i])
      {
        if 0 < i < |word| {
          assert t[i] == (name + suffix)[i - 1];
        } else if i > |word| {
          assert t[i] == args[i - |word| - 1];
        }
      }
    }
    SlashLine(t);
    OneLineCommand(name, suffix, args);
  }

  /** A text that starts with `/` has no leading whitespace to strip. */
  lemma SlashStripped(t: string)
    requires t != [] && t[0] == '/'
    ensures Text.LStrip(t) == t && Text.StartsWith(t, "/")
  {
    Text.LStripLeading([], t);
    assert [] + t == t;
    assert t[..1] == "/";
  }

  /** A text that starts with `/`: its first line, then later lines. */
  lemma SlashTextLines(line: string, more: seq<string>)
    requires line != [] && line[0] == '/' && Text.NoLineBreak(line)
    requires more != [] && more[|more| - 1] != []
    requires forall k :: 0 <= k < |more| ==> Text.NoLineBreak(more[k])
    ensures ParseSlashCommand(line + "\n" + Text.Join(more, "\n"))
         == ParseCommandLines([line] + more, line + "\n" + Text.Join(more, "\n"))
  {
    var t := line + "\n" + Text.Join(more, "\n");
    SlashStripped(t);
    Text.SplitLinesAfterLine(line, Text.Join(more, "\n"));
    Text.SplitLinesJoin(more);
  }

  /** The word `/name` or `/name@bot` has neither space nor line break. */
  lemma CommandWord(name: string, suffix: string)
    requires Text.NoSpace(name + suffix)
    ensures var word := "/" + name + suffix; ' ' !in word && Text.NoLineBreak(word)
    ensures Tail("/" + name + suffix) == name + suffix
  {
    var word := "/" + name + suffix;
    forall i | 0 < i < |word| ensures word[i] == (name + suffix)[i - 1] {
    }
    assert word[1..] == name + suffix;
  }

  /** Several lines whose first line is `word rest`: the command is read from
      `word`; the arguments are `rest`, a `\n` and the later lines joined by `\n`,
      or the later lines alone when `rest` is empty (parse.py:26-29). */
  lemma CommandLinesArgs(first: string, word: string, rest: string, more: seq<string>, text: string)
    requires PartitionSpace(first) == (word, rest)
    requires Tail(word) != [] && more != []
    ensures ParseCommandLines([first] + more, text)
         == (Some(Text.Lower(BeforeAt(Tail(word)))), (if rest != [] then rest + "\n" else []) + Text.Join(more, "\n"))
  {
    var lines := [first] + more;
    assert lines[0] == first && lines[1..] == more;
    var tail := Text.Join(more, "\n");
    if rest != [] {
      assert rest + "\n" + tail == (rest + "\n") + tail;
    } else {
      assert [] + tail == tail;
    }
  }

  /** A command over several lines: `/name rest` on the first line and the
      lines `more` after it. The arguments are the rest of the first line, a
      line break, then the later lines joined by `\n`. */
  lemma SlashCommandLines(name: string, suffix: string, rest: string, more: seq<string>)
    requires name != [] && '@' !in name
    requires suffix == [] || suffix[0] == '@'
    requires Text.NoSpace(name + suffix) && Text.NoLineBreak(rest)
    requires more != [] && more[|more| - 1] != []
    requires forall k :: 0 <= k < |more| ==> Text.NoLineBreak(more[k])
    ensures ParseSlashCommand("/" + name + suffix + " " + rest + "\n" + Text.Join(more, "\n"))
         == (Some(Text.Lower(name)), (if rest != [] then rest + "\n" else []) + Text.Join(more, "\n"))
  {
    var word := "/" + name + suffix;
    var line := word + " " + rest;
    var tail := Text.Join(more, "\n");
    CommandWord(name, suffix);
    assert Text.NoLineBreak(line) by {
      forall i | 0 <= i < |line| ensures !Text.IsLineBreak(line[i]) {
        if i > |word| {
          assert line[i] == rest[i - |word| - 1];
        } else if i < |word| {
          assert line[i] == word[i];
        }
      }
    }
    assert "/" + name + suffix + " " + rest + "\n" + tail == line + "\n" + tail;
    SlashTextLines(line, more);
    PartitionAfterWord(word, rest);
    BotSuffixCut(name, suffix);
    CommandLinesArgs(line, word, rest, more, line + "\n" + tail);
  }

  /** `/name` alone on the first line, then the lines `more`: the arguments
      are the later lines joined by `\n`. */
  lemma SlashCommandBareLines(name: string, suffix: string, more: seq<string>)
    requires name != [] && '@' !in name
    requires suffix == [] || suffix[0] == '@'
    requires Text.NoSpace(name + suffix)
    requires more != [] && more[|more| - 1] != []
    requires forall k :: 0 <= k < |more| ==> Text.NoLineBreak(more[k])
    ensures ParseSlashCommand("/" + name + suffix + "\n" + Text.Join(more, "\n"))
         == (Some(Text.Lower(name)), Text.Join(more, "\n"))
  {
    var word := "/" + name + suffix;
    CommandWord(name, suffix);
    SlashTextLines(word, more);
    BotSuffixCut(name, suffix);
    CommandLinesArgs(word, word, [], more, word + "\n" + Text.Join(more, "\n"));
    assert [] + Text.Join(more, "\n") == Text.Join(more, "\n");
  }

  /** The command name comes back lower-cased. */
  lemma CommandIsLowerCase(text: string)
    ensures var r := ParseSlashCommand(text); r.0.Some? ==> Text.Lower(r.0.value) == r.0.value
  {
    var r := ParseSlashCommand(text);
    if r.0.Some? {
      var lines := Text.SplitLines(Text.LStrip(text));
      var command := BeforeAt(Tail(PartitionSpace(lines[0]).0));
      assert r.0.value == Text.Lower(command);
      Text.LowerIdempotent(command);
    }
  }
}

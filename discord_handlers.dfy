/** The Discord transport's `@branch` prefix: a message that starts with
    `@name` asks for a run on branch `name`, with the rest as the prompt. */
module DiscordHandlers {
  import opened Wrappers
  import Text

  /** Leading whitespace does not change the words of a string. */
  lemma {:induction false} WordsAfterSpace(sp: string, s: string)
    requires Text.AllSpace(sp)
    ensures Text.Words(sp + s) == Text.Words(s)
    decreases |sp|
  {
    if sp != [] {
      assert (sp + s)[0] == sp[0] && (sp + s)[1..] == sp[1..] + s;
      WordsAfterSpace(sp[1..], s);
    } else {
      assert sp + s == s;
    }
  }

  /** `s.split(None, 1)`: the first word and what follows it with its
      leading whitespace removed, or `None` when `s` has no word. */
  function SplitFirstWord(s: string): (r: Option<(string, string)>)
    ensures r.None? <==> Text.AllSpace(s)
    ensures r.Some? ==> r.value.0 != [] && Text.NoSpace(r.value.0)
    ensures r.Some? ==> r.value.1 == [] || !Text.IsSpace(r.value.1[0])
  {
    var t := Text.LStrip(s);
    if t == [] then None
    else
      var n := Text.WordLen(t);
      Some((t[..n], Text.LStrip(t[n..])))
  }

  /** The first word and the words of the rest are the words of `s`. */
  lemma {:induction false} SplitFirstWordWords(s: string)
    ensures SplitFirstWord(s).None? <==> Text.Words(s) == []
    ensures SplitFirstWord(s).Some? ==> Text.Words(s) == [SplitFirstWord(s).value.0] + Text.Words(SplitFirstWord(s).value.1)
  {
    LStripWords(s);
    var t := Text.LStrip(s);
    if t != [] {
      FirstWordWords(t);
    }
  }

  lemma {:induction false} LStripWords(s: string)
    ensures Text.Words(Text.LStrip(s)) == Text.Words(s)
    ensures Text.LStrip(s) == [] <==> Text.Words(s) == []
  {
    var t := Text.LStrip(s);
    var sp := s[..|s| - |t|];
    assert s == sp + t;
    WordsAfterSpace(sp, t);
    assert Text.Words(s) == Text.Words(t);
    if t != [] {
      WordsNonEmpty(t);
    }
  }

  lemma {:induction false} WordsNonEmpty(t: string)
    requires t != [] && !Text.IsSpace(t[0])
    ensures Text.Words(t) != []
  {
    var n := Text.WordLen(t);
    assert Text.Words(t) == [t[..n]] + Text.Words(t[n..]);
  }

  lemma {:induction false} FirstWordWords(t: string)
    requires t != [] && !Text.IsSpace(t[0])
    ensures var n := Text.WordLen(t);
      Text.Words(t) == [t[..n]] + Text.Words(Text.LStrip(t[n..]))
  {
    var n := Text.WordLen(t);
    Text.WordsPrefix(t[..n], t[n..]);
    assert t == t[..n] + t[n..];
    LStripWords(t[n..]);
  }

  /** `parse_branch_prefix`: on the stripped message, `@branch rest` gives
      the branch and the stripped rest; anything else, a lone `@`
      included, gives no branch and the stripped message. */
  function ParseBranchPrefix(content: string): (r: (Option<string>, string))
    ensures !Text.StartsWith(Text.Strip(content), "@") ==> r == (None, Text.Strip(content))
    ensures Text.Strip(content) == "@" ==> r == (None, "@")
    ensures r.0.None? ==> r.1 == Text.Strip(content)
    ensures r.0.Some? ==> Text.StartsWith(Text.Strip(content), "@") && r.0.value != [] && Text.NoSpace(r.0.value)
    ensures r.1 == [] || (!Text.IsSpace(r.1[0]) && !Text.IsSpace(r.1[|r.1| - 1]))
  {
    var stripped := Text.Strip(content);
    if !Text.StartsWith(stripped, "@") then (None, stripped)
    else
      var parts := SplitFirstWord(stripped[1..]);
      if parts.None? then (None, stripped)
      else (Some(parts.value.0), Text.Strip(parts.value.1))
  }

  /** The branch is the first word after the `@` and the prompt holds the
      remaining words; there is no branch exactly when no word follows. */
  lemma {:induction false} BranchPrefixWords(content: string)
    requires Text.StartsWith(Text.Strip(content), "@")
    ensures var r := ParseBranchPrefix(content);
      (r.0.None? <==> Text.Words(Text.Strip(content)[1..]) == [])
      && (r.0.Some? ==> Text.Words(Text.Strip(content)[1..]) == [r.0.value] + Text.Words(r.1))
  {
    var stripped := Text.Strip(content);
    SplitFirstWordWords(stripped[1..]);
    var parts := SplitFirstWord(stripped[1..]);
    if parts.Some? {
      WordsOfStrip(parts.value.1);
    }
  }

  /** Stripping keeps the words. */
  lemma {:induction false} WordsOfStrip(s: string)
    ensures Text.Words(Text.Strip(s)) == Text.Words(s)
  {
    var l := Text.LStrip(s);
    var r := Text.RStripBy(l, Text.IsSpace);
    assert Text.Strip(s) == r;
    LStripWords(s);
    var tail := l[|r|..];
    assert l == r + tail;
    WordsBeforeSpace(r, tail);
  }

  /** Trailing whitespace does not change the words of a string. */
  lemma {:induction false} WordsBeforeSpace(s: string, sp: string)
    requires Text.AllSpace(sp)
    ensures Text.Words(s + sp) == Text.Words(s)
    decreases |s|
  {
    if s == [] {
      assert s + sp == sp + [];
      WordsAfterSpace(sp, []);
    } else if Text.IsSpace(s[0]) {
      assert (s + sp)[1..] == s[1..] + sp;
      WordsBeforeSpace(s[1..], sp);
    } else {
      var n := Text.WordLen(s);
      WordLenBeforeSpace(s, sp);
      assert (s + sp)[..n] == s[..n];
      assert (s + sp)[n..] == s[n..] + sp;
      WordsBeforeSpace(s[n..], sp);
    }
  }

  /** A word cut short by the end of `s` is also cut by the whitespace after it. */
  lemma {:induction false} WordLenBeforeSpace(s: string, sp: string)
    requires Text.AllSpace(sp)
    ensures Text.WordLen(s + sp) == Text.WordLen(s)
    decreases |s|
  {
    if s == [] {
      assert s + sp == sp;
    } else {
      assert (s + sp)[0] == s[0] && (s + sp)[1..] == s[1..] + sp;
      WordLenBeforeSpace(s[1..], sp);
    }
  }

  /** Writing `@branch` before a prompt and parsing it back gives the branch
      and the prompt, for a one-word branch and a prompt without whitespace
      at either end; `@branch` alone gives the branch and an empty prompt. */
  lemma {:induction false} BranchPrefixRoundTrip(branch: string, prompt: string)
    requires branch != [] && Text.NoSpace(branch)
    requires prompt == [] || (!Text.IsSpace(prompt[0]) && !Text.IsSpace(prompt[|prompt| - 1]))
    ensures ParseBranchPrefix(if prompt == [] then "@" + branch else "@" + branch + " " + prompt) == (Some(branch), prompt)
  {
    var rest := if prompt == [] then [] else " " + prompt;
    var line := "@" + (branch + rest);
    PrefixedLine(branch, prompt, line);
    SplitAfterBranch(branch, prompt);
    ParseTight(line, branch, prompt);
    Text.StripTight(prompt);
  }

  /** The line `@branch prompt` has no whitespace at either end, and after its `@` come the branch and the rest. */
  lemma {:induction false} PrefixedLine(branch: string, prompt: string, line: string)
    requires branch != [] && Text.NoSpace(branch)
    requires prompt == [] || (!Text.IsSpace(prompt[0]) && !Text.IsSpace(prompt[|prompt| - 1]))
    requires line == "@" + (branch + (if prompt == [] then [] else " " + prompt))
    ensures line == (if prompt == [] then "@" + branch else "@" + branch + " " + prompt)
    ensures |line| > 1 && Text.Strip(line) == line && Text.StartsWith(line, "@")
    ensures line[1..] == branch + (if prompt == [] then [] else " " + prompt)
  {
    LineEnds(branch, prompt, line);
    Text.StripTight(line);
    LineForms(branch, prompt, line);
  }

  lemma {:induction false} LineEnds(branch: string, prompt: string, line: string)
    requires branch != [] && Text.NoSpace(branch)
    requires prompt == [] || !Text.IsSpace(prompt[|prompt| - 1])
    requires line == "@" + (branch + (if prompt == [] then [] else " " + prompt))
    ensures line != [] && !Text.IsSpace(line[0]) && !Text.IsSpace(line[|line| - 1])
  {
    if prompt == [] {
      assert line[|line| - 1] == branch[|branch| - 1];
    } else {
      assert line[|line| - 1] == prompt[|prompt| - 1];
    }
  }

  lemma {:induction false} LineForms(branch: string, prompt: string, line: string)
    requires line == "@" + (branch + (if prompt == [] then [] else " " + prompt))
    ensures line == (if prompt == [] then "@" + branch else "@" + branch + " " + prompt)
    ensures |line| > 1 ==> Text.StartsWith(line, "@")
    ensures |line| > 0 && line[1..] == branch + (if prompt == [] then [] else " " + prompt)
  {
    if prompt == [] {
      assert branch + [] == branch;
    } else {
      assert "@" + (branch + (" " + prompt)) == "@" + branch + " " + prompt;
    }
  }

  lemma {:induction false} ParseTight(line: string, branch: string, prompt: string)
    requires Text.StartsWith(Text.Strip(line), "@")
    requires SplitFirstWord(Text.Strip(line)[1..]) == Some((branch, prompt))
    ensures ParseBranchPrefix(line) == (Some(branch), Text.Strip(prompt))
  {
  }

  lemma {:induction false} SplitAfterBranch(branch: string, prompt: string)
    requires branch != [] && Text.NoSpace(branch)
    requires prompt == [] || !Text.IsSpace(prompt[0])
    ensures SplitFirstWord(branch + (if prompt == [] then [] else " " + prompt)) == Some((branch, prompt))
  {
    var rest := if prompt == [] then [] else " " + prompt;
    var after := branch + rest;
    Text.WordLenOfWord(branch, rest);
    assert Text.LStrip(after) == after;
    assert after[..|branch|] == branch && after[|branch|..] == rest;
    if prompt != [] {
      Text.LStripLeading(" ", prompt);
    }
  }
}

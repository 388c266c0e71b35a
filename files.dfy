/** The `/file put` and `/file get` commands: their arguments, and the
    relative paths they may touch. */
module Files {
  import opened Wrappers
  import Text

  const FILE_USAGE: string := "usage: `/file put <path>` or `/file get <path>`"

  /** The command, the rest of the arguments, and a usage error. */
  datatype FileCommand = FileCommand(command: Option<string>, rest: string, error: Option<string>)

  /** `parse_file_command`, given the shell-split tokens: the first token,
      lower-cased, must be `put` or `get`; the others, joined by spaces, are
      the rest. */
  function ParseFileCommand(tokens: seq<string>): (r: FileCommand)
    ensures tokens == [] ==> r == FileCommand(None, [], Some(FILE_USAGE))
    ensures r.error.None? <==> tokens != [] && (Text.Lower(tokens[0]) == "put" || Text.Lower(tokens[0]) == "get")
    ensures r.error.Some? ==> r.command.None? && r.error == Some(FILE_USAGE)
    ensures r.command.Some? ==> r.command.value == Text.Lower(tokens[0])
    ensures tokens != [] ==> r.rest == Text.Strip(Text.Join(tokens[1..], " "))
  {
    if tokens == [] then FileCommand(None, [], Some(FILE_USAGE))
    else
      var command := Text.Lower(tokens[0]);
      var rest := Text.Strip(Text.Join(tokens[1..], " "));
      if command != "put" && command != "get" then FileCommand(None, rest, Some(FILE_USAGE))
      else FileCommand(Some(command), rest, None)
  }

  /** `PUT`, `Get` and the like are accepted, and a single path word is the rest. */
  lemma FileCommandWithPath(command: string, path: string)
    requires Text.Lower(command) == "put" || Text.Lower(command) == "get"
    requires path != [] && !Text.IsSpace(path[0]) && !Text.IsSpace(path[|path| - 1])
    ensures ParseFileCommand([command, path]) == FileCommand(Some(Text.Lower(command)), path, None)
  {
    assert [command, path][1..] == [path];
    Text.StripTight(path);
  }

  /** A flag other than `--force`. */
  predicate IsUnknownFlag(token: string) {
    Text.StartsWith(token, "--") && token != "--force"
  }

  function FirstUnknownFlagFrom(tokens: seq<string>, k: nat): (r: Option<nat>)
    requires k <= |tokens|
    ensures r.Some? ==> k <= r.value < |tokens| && IsUnknownFlag(tokens[r.value])
    ensures r.Some? ==> forall j :: k <= j < r.value ==> !IsUnknownFlag(tokens[j])
    ensures r.None? ==> forall j :: k <= j < |tokens| ==> !IsUnknownFlag(tokens[j])
    decreases |tokens| - k
  {
    if k == |tokens| then None
    else if IsUnknownFlag(tokens[k]) then Some(k)
    else FirstUnknownFlagFrom(tokens, k + 1)
  }

  /** Where the first unknown flag is, if any. */
  function FirstUnknownFlag(tokens: seq<string>): (r: Option<nat>)
    ensures r.Some? ==> r.value < |tokens| && IsUnknownFlag(tokens[r.value])
    ensures r.Some? ==> forall j :: 0 <= j < r.value ==> !IsUnknownFlag(tokens[j])
    ensures r.None? ==> forall j :: 0 <= j < |tokens| ==> !IsUnknownFlag(tokens[j])
  {
    FirstUnknownFlagFrom(tokens, 0)
  }

  /** The tokens that make up the path: all but `--force`, in order. */
  function PathTokens(tokens: seq<string>): (r: seq<string>)
    ensures "--force" !in r
    ensures forall i :: 0 <= i < |r| ==> r[i] in tokens
    decreases |tokens|
  {
    if tokens == [] then []
    else
      var init := PathTokens(tokens[..|tokens| - 1]);
      var last := tokens[|tokens| - 1];
      if last == "--force" then init else init + [last]
  }

  lemma {:induction false} PathTokensAppend(a: seq<string>, b: seq<string>)
    ensures PathTokens(a + b) == PathTokens(a) + PathTokens(b)
    decreases |b|
  {
    if b == [] {
      assert a + b == a;
    } else {
      var ab := a + b;
      assert ab[..|ab| - 1] == a + b[..|b| - 1];
      PathTokensAppend(a, b[..|b| - 1]);
    }
  }

  /** The path, the `--force` flag and an error. */
  datatype FilePrompt = FilePrompt(path: Option<string>, force: bool, error: Option<string>)

  /** What `parse_file_prompt` computes: the first unknown flag is an error
      (with `force` as set before it); otherwise the path is the other
      tokens joined by spaces, and an empty path is an error unless allowed. */
  function FilePromptOf(tokens: seq<string>, allowEmpty: bool): (r: FilePrompt)
    ensures r.path.Some? ==> r.error.None? && r.path.value != []
    ensures FirstUnknownFlag(tokens).Some? ==>
      r.error == Some("unknown flag: " + tokens[FirstUnknownFlag(tokens).value])
      && (r.force <==> "--force" in tokens[..FirstUnknownFlag(tokens).value])
    ensures FirstUnknownFlag(tokens).None? ==> (r.force <==> "--force" in tokens)
    ensures FirstUnknownFlag(tokens).None? ==>
      (r.error.None? <==> allowEmpty || r.path.Some?)
      && (r.path.Some? ==> r.path.value == Text.Strip(Text.Join(PathTokens(tokens), " ")))
  {
    match FirstUnknownFlag(tokens)
    case Some(k) => FilePrompt(None, "--force" in tokens[..k], Some("unknown flag: " + tokens[k]))
    case None =>
      var path := Text.Strip(Text.Join(PathTokens(tokens), " "));
      var force := "--force" in tokens;
      if path == [] && !allowEmpty then FilePrompt(None, force, Some("missing path"))
      else FilePrompt(if path == [] then None else Some(path), force, None)
  }

  /** The loop of `parse_file_prompt`. */
  method ParseFilePrompt(tokens: seq<string>, allowEmpty: bool) returns (r: FilePrompt)
    ensures r == FilePromptOf(tokens, allowEmpty)
  {
    var force := false;
    var parts: seq<string> := [];
    for i := 0 to |tokens|
      invariant force <==> "--force" in tokens[..i]
      invariant parts == PathTokens(tokens[..i])
      invariant NoUnknownFlag(tokens[..i])
    {
      var token := tokens[i];
      PromptStep(tokens, i);
      if token == "--force" {
        force := true;
        continue;
      }
      if Text.StartsWith(token, "--") {
        PromptAtFlag(tokens, allowEmpty, i);
        return FilePrompt(None, force, Some("unknown flag: " + token));
      }
      parts := parts + [token];
    }
    assert tokens[..|tokens|] == tokens;
    PromptWithoutFlag(tokens, allowEmpty);
    var path := Text.Strip(Text.Join(parts, " "));
    if path == [] && !allowEmpty {
      return FilePrompt(None, force, Some("missing path"));
    }
    r := FilePrompt(if path == [] then None else Some(path), force, None);
  }

  /** No token is an unknown flag. */
  predicate NoUnknownFlag(tokens: seq<string>) {
    forall j :: 0 <= j < |tokens| ==> !IsUnknownFlag(tokens[j])
  }

  /** One more token: `--force` sets the flag, any other token joins the path. */
  lemma PromptStep(tokens: seq<string>, i: nat)
    requires i < |tokens|
    ensures ("--force" in tokens[..i + 1]) <==> ("--force" in tokens[..i] || tokens[i] == "--force")
    ensures PathTokens(tokens[..i + 1])
         == if tokens[i] == "--force" then PathTokens(tokens[..i]) else PathTokens(tokens[..i]) + [tokens[i]]
    ensures NoUnknownFlag(tokens[..i + 1]) <==> NoUnknownFlag(tokens[..i]) && !IsUnknownFlag(tokens[i])
  {
    assert tokens[..i + 1] == tokens[..i] + [tokens[i]];
    assert tokens[..i + 1][..i] == tokens[..i];
  }

  /** The first token that is an unknown flag decides the outcome. */
  lemma PromptAtFlag(tokens: seq<string>, allowEmpty: bool, i: nat)
    requires i < |tokens| && IsUnknownFlag(tokens[i]) && NoUnknownFlag(tokens[..i])
    ensures FilePromptOf(tokens, allowEmpty) == FilePrompt(None, "--force" in tokens[..i], Some("unknown flag: " + tokens[i]))
  {
    assert forall j :: 0 <= j < i ==> tokens[..i][j] == tokens[j];
    assert FirstUnknownFlag(tokens) == Some(i);
  }

  /** Without unknown flags the outcome is decided by the path. */
  lemma PromptWithoutFlag(tokens: seq<string>, allowEmpty: bool)
    requires NoUnknownFlag(tokens)
    ensures var path := Text.Strip(Text.Join(PathTokens(tokens), " "));
            FilePromptOf(tokens, allowEmpty)
            == (if path == [] && !allowEmpty then FilePrompt(None, "--force" in tokens, Some("missing path"))
                else FilePrompt(if path == [] then None else Some(path), "--force" in tokens, None))
  {
    assert FirstUnknownFlag(tokens).None?;
  }

  /** `--force` may stand anywhere among the path words: it sets `force` and
      leaves the path as it was. */
  lemma ForceAnywhere(a: seq<string>, b: seq<string>, allowEmpty: bool)
    requires forall i :: 0 <= i < |a + b| ==> !IsUnknownFlag((a + b)[i])
    ensures FilePromptOf(a + ["--force"] + b, allowEmpty).force
    ensures FilePromptOf(a + ["--force"] + b, allowEmpty).path == FilePromptOf(a + b, allowEmpty).path
    ensures FilePromptOf(a + ["--force"] + b, allowEmpty).error == FilePromptOf(a + b, allowEmpty).error
  {
    var t := a + ["--force"] + b;
    assert t[|a|] == "--force";
    forall j | 0 <= j < |t|
      ensures !IsUnknownFlag(t[j])
    {
      if j < |a| {
        assert t[j] == (a + b)[j];
      } else if j > |a| {
        assert t[j] == (a + b)[j - 1];
      }
    }
    PathTokensAppend(a + ["--force"], b);
    PathTokensAppend(a, ["--force"]);
    PathTokensAppend(a, b);
    assert ["--force"][..0] == [];
  }

  /** The parts of a POSIX path, with empty and `.` parts dropped. */
  function KeptParts(parts: seq<string>): (r: seq<string>)
    ensures forall i :: 0 <= i < |r| ==> r[i] != [] && r[i] != "." && r[i] in parts
    ensures (forall i :: 0 <= i < |parts| ==> parts[i] != [] && parts[i] != ".") ==> r == parts
  {
    if parts == [] then []
    else if parts[0] == [] || parts[0] == "." then KeptParts(parts[1..])
    else [parts[0]] + KeptParts(parts[1..])
  }

  /** `Path(s).parts` without its root: the `/`-separated names, with empty and `.` names dropped. */
  function PathParts(s: string): (r: seq<string>)
    ensures forall i :: 0 <= i < |r| ==> r[i] != [] && r[i] != "." && '/' !in r[i]
  {
    var split := Text.Split(s, '/');
    var r := KeptParts(split);
    assert forall i :: 0 <= i < |r| ==> r[i] in split;
    r
  }

  /** `normalize_relative_path`: a stripped, relative path that does not
      start with `~`, has a part left, and has no `..` and no `.git` part. */
  function NormalizeRelativePath(value: string): (r: Option<seq<string>>)
    ensures r.Some? ==> r.value != []
    ensures r.Some? ==> forall i :: 0 <= i < |r.value| ==>
      r.value[i] != [] && r.value[i] != "." && r.value[i] != ".." && r.value[i] != ".git" && '/' !in r.value[i]
    ensures var c := Text.Strip(value); c == [] || c[0] == '~' || c[0] == '/' ==> r.None?
  {
    var cleaned := Text.Strip(value);
    if cleaned == [] || cleaned[0] == '~' || cleaned[0] == '/' then None
    else
      var parts := PathParts(cleaned);
      if parts == [] || ".." in parts || ".git" in parts then None
      else Some(parts)
  }

  /** A name that may stand in a normalised relative path. */
  predicate PlainName(name: string) {
    name != [] && name != "." && name != ".." && name != ".git" && '/' !in name
  }

  /** The `/`-separated names of a path read back as its parts. */
  lemma PathPartsOfJoin(parts: seq<string>)
    requires parts != [] && forall i :: 0 <= i < |parts| ==> PlainName(parts[i])
    ensures PathParts(Text.Join(parts, "/")) == parts
  {
    Text.SplitJoin(parts, '/');
  }

  /** A relative path written out with `/` normalises back to its parts. */
  lemma NormalizeRoundTrip(parts: seq<string>)
    requires parts != [] && forall i :: 0 <= i < |parts| ==> PlainName(parts[i])
    requires parts[0] != [] && parts[0][0] != '~' && !Text.IsSpace(parts[0][0])
    requires parts[|parts| - 1] != [] && !Text.IsSpace(parts[|parts| - 1][|parts[|parts| - 1]| - 1])
    ensures NormalizeRelativePath(Text.Join(parts, "/")) == Some(parts)
  {
    var s := Text.Join(parts, "/");
    assert Text.Strip(s) == s by {
      Text.JoinFirst(parts, "/");
      Text.JoinLast(parts, "/");
      assert s[0] == parts[0][0];
      assert s[|s| - 1] == parts[|parts| - 1][|parts[|parts| - 1]| - 1];
      Text.StripTight(s);
    }
    assert s[0] == parts[0][0] && parts[0][0] != '/' by {
      Text.JoinFirst(parts, "/");
      assert parts[0][0] in parts[0];
    }
    PathPartsOfJoin(parts);
    assert ".." !in parts && ".git" !in parts;
  }

  /** `deny_reason`: any path through `.git` is denied by the pattern for `.git`;
      otherwise the first deny pattern that matches. Glob matching is the
      parameter `globMatch`. */
  function DenyReason(relPath: seq<string>, denyGlobs: seq<string>, globMatch: (seq<string>, string) -> bool): (r: Option<string>)
    ensures ".git" in relPath ==> r == Some(".git/**")
    ensures ".git" !in relPath && r.Some? ==> r.value in denyGlobs && globMatch(relPath, r.value)
    ensures ".git" !in relPath && r.None? ==> forall i :: 0 <= i < |denyGlobs| ==> !globMatch(relPath, denyGlobs[i])
    ensures ".git" !in relPath && r.Some? ==>
      exists k :: 0 <= k < |denyGlobs| && denyGlobs[k] == r.value && forall j :: 0 <= j < k ==> !globMatch(relPath, denyGlobs[j])
  {
    if ".git" in relPath then Some(".git/**") else FirstMatch(relPath, denyGlobs, globMatch)
  }

  /** The first pattern from index `k` on that matches. */
  function FirstMatchFrom(relPath: seq<string>, globs: seq<string>, globMatch: (seq<string>, string) -> bool, k: nat): (r: Option<nat>)
    requires k <= |globs|
    ensures r.Some? ==> k <= r.value < |globs| && globMatch(relPath, globs[r.value])
    ensures r.Some? ==> forall j :: k <= j < r.value ==> !globMatch(relPath, globs[j])
    ensures r.None? ==> forall j :: k <= j < |globs| ==> !globMatch(relPath, globs[j])
    decreases |globs| - k
  {
    if k == |globs| then None
    else if globMatch(relPath, globs[k]) then Some(k)
    else FirstMatchFrom(relPath, globs, globMatch, k + 1)
  }

  /** The first pattern that matches, in order. */
  function FirstMatch(relPath: seq<string>, globs: seq<string>, globMatch: (seq<string>, string) -> bool): (r: Option<string>)
    ensures r.Some? ==> r.value in globs && globMatch(relPath, r.value)
    ensures r.None? ==> forall i :: 0 <= i < |globs| ==> !globMatch(relPath, globs[i])
  {
    match FirstMatchFrom(relPath, globs, globMatch, 0)
    case Some(k) => Some(globs[k])
    case None => None
  }

  /** `Path(s).name`: the last part, or nothing. */
  function BaseName(s: string): (r: string)
    ensures r == [] || (r != "." && '/' !in r)
  {
    var parts := PathParts(s);
    if parts == [] then [] else parts[|parts| - 1]
  }

  /** `default_upload_name`: the name of the given file name, else the name
      of the file path, else `upload.bin`. */
  function DefaultUploadName(filename: Option<string>, filePath: Option<string>): (r: string)
    ensures r != [] && '/' !in r
    ensures BaseName(filename.GetOr([])) != [] ==> r == BaseName(filename.GetOr([]))
    ensures BaseName(filename.GetOr([])) == [] && filePath.Some? && BaseName(filePath.value) != [] ==> r == BaseName(filePath.value)
    ensures r == "upload.bin" || r == BaseName(filename.GetOr([])) || (filePath.Some? && r == BaseName(filePath.value))
  {
    var name := BaseName(filename.GetOr([]));
    var name1 := if name == [] && filePath.Some? && filePath.value != [] then BaseName(filePath.value) else name;
    if name1 == [] then "upload.bin" else name1
  }

  /** An uploaded file named by a path keeps the path's last name. */
  lemma UploadNameOfPath(dirs: seq<string>, name: string)
    requires PlainName(name) && forall i :: 0 <= i < |dirs| ==> '/' !in dirs[i]
    ensures DefaultUploadName(Some(Text.Join(dirs + [name], "/")), None) == name
  {
    var parts := dirs + [name];
    var s := Text.Join(parts, "/");
    assert BaseName(s) == name by {
      LastPathPart(parts);
    }
  }

  /** The last part of a path written out with `/` is its last name. */
  lemma LastPathPart(parts: seq<string>)
    requires parts != [] && forall i :: 0 <= i < |parts| ==> '/' !in parts[i]
    requires parts[|parts| - 1] != [] && parts[|parts| - 1] != "."
    ensures BaseName(Text.Join(parts, "/")) == parts[|parts| - 1]
  {
    var s := Text.Join(parts, "/");
    assert PathParts(s) == KeptParts(parts) by {
      Text.SplitJoin(parts, '/');
    }
    KeptPartsLast(parts);
  }

  lemma {:induction false} KeptPartsLast(parts: seq<string>)
    requires parts != [] && parts[|parts| - 1] != [] && parts[|parts| - 1] != "."
    ensures KeptParts(parts) != [] && KeptParts(parts)[|KeptParts(parts)| - 1] == parts[|parts| - 1]
  {
    if |parts| > 1 {
      assert parts[1..][|parts[1..]| - 1] == parts[|parts| - 1];
      KeptPartsLast(parts[1..]);
    }
  }
}

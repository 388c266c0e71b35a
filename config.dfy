/** The configuration helpers: the projects table and its alias lookup,
    `ensure_table`, and the TOML writer used to save a configuration dict. */
module Config {
  import opened Wrappers
  import Json
  import Text

  /** One configured project. Paths are carried as strings. */
  datatype ProjectConfig = ProjectConfig(
    alias: string, path: string, worktreesDir: string,
    defaultEngine: Option<string>, worktreeBase: Option<string>, chatId: Option<int>)

  /** `ProjectsConfig`: `projects` is a dict from lower-cased alias to
      project, in insertion order. */
  datatype ProjectsConfig = ProjectsConfig(
    projects: seq<(string, ProjectConfig)>, defaultProject: Option<string>, chatMap: map<int, string>)

  /** `projects.get(key)`: the project stored under `key`. */
  function GetProject(projects: seq<(string, ProjectConfig)>, key: string): (r: Option<ProjectConfig>)
    ensures r.None? <==> forall i :: 0 <= i < |projects| ==> projects[i].0 != key
    ensures r.Some? ==> exists i :: 0 <= i < |projects| && projects[i] == (key, r.value)
  {
    if projects == [] then None
    else if projects[0].0 == key then Some(projects[0].1)
    else
      var r := GetProject(projects[1..], key);
      assert forall i :: 1 <= i < |projects| ==> projects[i] == projects[1..][i - 1];
      r
  }

  predicate HasProject(pc: ProjectsConfig, key: string) {
    GetProject(pc.projects, key).Some?
  }

  /** `ProjectsConfig.resolve`: no alias means the default project (if
      any); an alias is looked up lower-cased. */
  function Resolve(pc: ProjectsConfig, alias: Option<string>): (r: Option<ProjectConfig>)
    ensures alias.None? && pc.defaultProject.None? ==> r.None?
    ensures alias.None? && pc.defaultProject.Some? ==> r == GetProject(pc.projects, pc.defaultProject.value)
    ensures alias.Some? ==> r == GetProject(pc.projects, Text.Lower(alias.value))
  {
    if alias.None? then
      if pc.defaultProject.None? then None else GetProject(pc.projects, pc.defaultProject.value)
    else GetProject(pc.projects, Text.Lower(alias.value))
  }

  /** `project_for_chat`: the project bound to a chat, if any. */
  function ProjectForChat(pc: ProjectsConfig, chatId: Option<int>): (r: Option<string>)
    ensures r.Some? <==> chatId.Some? && chatId.value in pc.chatMap
    ensures r.Some? ==> r.value == pc.chatMap[chatId.value]
  {
    if chatId.Some? && chatId.value in pc.chatMap then Some(pc.chatMap[chatId.value]) else None
  }

  /** `ensure_table`: the table stored under `key`, creating an empty one when
      the key is missing (or holds `None`); any other value is an error.
      Returns the new configuration and the table. */
  function EnsureTable(config: Json.Fields, key: string, name: string): (r: Result<(Json.Fields, Json.Fields)>)
    requires Json.DistinctKeys(config)
    ensures r.Err? <==> Json.Lookup(config, key).Some? && !Json.Lookup(config, key).value.Null? && !Json.Lookup(config, key).value.Obj?
    ensures r.Ok? ==> Json.Lookup(r.value.0, key) == Some(Json.Obj(r.value.1))
    ensures r.Ok? ==> forall k :: k != key ==> Json.Lookup(r.value.0, k) == Json.Lookup(config, k)
    ensures r.Ok? && Json.Lookup(config, key).Some? && Json.Lookup(config, key).value.Obj? ==>
      r.value.0 == config && r.value.1 == Json.Lookup(config, key).value.fields
    ensures r.Ok? && (Json.Lookup(config, key).None? || Json.Lookup(config, key).value.Null?) ==> r.value.1 == []
  {
    var value := Json.Lookup(config, key);
    if value.None? || value.value.Null? then
      Ok((Json.Put(config, key, Json.Obj([])), []))
    else if !value.value.Obj? then
      Err("Invalid `" + name + "` in config; expected a table.")
    else
      Ok((config, value.value.fields))
  }

  /** `str.replace` of one character by a string. */
  function ReplaceChar(s: string, c: char, repl: string): (r: string)
    ensures c !in repl ==> c !in r
  {
    if s == [] then [] else (if s[0] == c then repl else [s[0]]) + ReplaceChar(s[1..], c, repl)
  }

  lemma {:induction false} ReplaceCharAppend(a: string, b: string, c: char, repl: string)
    ensures ReplaceChar(a + b, c, repl) == ReplaceChar(a, c, repl) + ReplaceChar(b, c, repl)
  {
    if a != [] {
      assert (a + b)[0] == a[0] && (a + b)[1..] == a[1..] + b;
      ReplaceCharAppend(a[1..], b, c, repl);
    } else {
      assert a + b == b;
    }
  }

  /** `_toml_escape`: backslashes are doubled first, then quotes are escaped. */
  function TomlEscape(s: string): (r: string)
  {
    ReplaceChar(ReplaceChar(s, '\\', "\\\\"), '"', "\\\"")
  }

  /** The escape of one character. */
  function EscapeChar(c: char): string {
    if c == '\\' then "\\\\" else if c == '"' then "\\\"" else [c]
  }

  function EscapeEach(s: string): string {
    if s == [] then [] else EscapeChar(s[0]) + EscapeEach(s[1..])
  }

  /** Doing the quotes after the backslashes means every character is escaped
      on its own: the backslashes added for quotes are not doubled again. */
  lemma {:induction false} TomlEscapePerChar(s: string)
    ensures TomlEscape(s) == EscapeEach(s)
  {
    if s != [] {
      var head := if s[0] == '\\' then "\\\\" else [s[0]];
      assert ReplaceChar(s, '\\', "\\\\") == head + ReplaceChar(s[1..], '\\', "\\\\");
      ReplaceCharAppend(head, ReplaceChar(s[1..], '\\', "\\\\"), '"', "\\\"");
      TomlEscapePerChar(s[1..]);
      if s[0] == '\\' {
        assert ReplaceChar(head, '"', "\\\"") == "\\\\";
      } else if s[0] == '"' {
        assert ReplaceChar(head, '"', "\\\"") == "\\\"";
      } else {
        assert ReplaceChar(head, '"', "\\\"") == [s[0]];
      }
    }
  }

  /** Reading a TOML basic string body back: a backslash takes the next
      character literally. */
  function Unescape(s: string): string {
    if s == [] then []
    else if s[0] == '\\' && |s| >= 2 then [s[1]] + Unescape(s[2..])
    else [s[0]] + Unescape(s[1..])
  }

  lemma {:induction false} UnescapeEscapeEach(s: string)
    ensures Unescape(EscapeEach(s)) == s
  {
    if s != [] {
      var e := EscapeEach(s);
      var rest := EscapeEach(s[1..]);
      assert e == EscapeChar(s[0]) + rest;
      UnescapeEscapeEach(s[1..]);
      if s[0] == '\\' || s[0] == '"' {
        assert e[2..] == rest;
      } else {
        assert e[1..] == rest;
      }
    }
  }

  /** The escaped text reads back as the original. */
  lemma TomlEscapeRoundTrip(s: string)
    ensures Unescape(TomlEscape(s)) == s
  {
    TomlEscapePerChar(s);
    UnescapeEscapeEach(s);
  }

  /** A value `_format_toml_value` can write: a bool, int, float, path or
      string, or a list of such values. */
  predicate Supported(v: Json.Value)
    decreases v
  {
    match v
    case Bool(_) => true
    case Int(_) => true
    case Float(_) => true
    case PathV(_) => true
    case Str(_) => true
    case Arr(items) => forall i :: 0 <= i < |items| ==> Supported(items[i])
    case _ => false
  }

  function Quote(s: string): string {
    "\"" + TomlEscape(s) + "\""
  }

  /** `_format_toml_value`: booleans are checked before integers (a Python
      `bool` is an `int`), strings and paths are quoted and escaped, lists are
      written inline; anything else is an error. */
  function FormatValue(v: Json.Value): (r: Result<string>)
    ensures r.Ok? <==> Supported(v)
    ensures v.Bool? ==> r == Ok(if v.b then "true" else "false")
    ensures v.Str? ==> r == Ok(Quote(v.s))
    ensures v.PathV? ==> r == Ok(Quote(v.path))
    decreases v, 1, 0
  {
    match v
    case Bool(b) => Ok(if b then "true" else "false")
    case Int(i) => Ok(Text.IntToString(i))
    case Float(repr) => Ok(repr)
    case PathV(p) => Ok(Quote(p))
    case Str(s) => Ok(Quote(s))
    case Arr(items) =>
      var inner :- FormatItems(v, 0);
      Ok("[" + inner + "]")
    case Null => Err("Unsupported config value None")
    case _ => Err("Unsupported config value")
  }

  /** The items of a list from position `i` on, joined by `", "`. */
  function FormatItems(v: Json.Value, i: nat): (r: Result<string>)
    requires v.Arr? && i <= |v.items|
    ensures r.Ok? <==> forall j :: i <= j < |v.items| ==> Supported(v.items[j])
    decreases v, 0, |v.items| - i
  {
    if i == |v.items| then Ok("")
    else
      var head :- FormatValue(v.items[i]);
      var rest :- FormatItems(v, i + 1);
      Ok(if i + 1 == |v.items| then head else head + ", " + rest)
  }

  /** A string written by `_format_toml_value` reads back as itself. */
  lemma FormatStringRoundTrip(s: string)
    ensures var r := FormatValue(Json.Str(s)).value;
      |r| >= 2 && r[0] == '"' && r[|r| - 1] == '"' && Unescape(r[1..|r| - 1]) == s
  {
    TomlEscapeRoundTrip(s);
    var r := FormatValue(Json.Str(s)).value;
    assert r[1..|r| - 1] == TomlEscape(s);
  }

  /** `_table_has_scalars`. */
  predicate HasScalars(t: Json.Fields) {
    exists i :: 0 <= i < |t| && !t[i].1.Obj?
  }

  /** The `key = value` lines of the scalar entries of a table, in order. */
  function KvLines(t: Json.Fields): (r: Result<seq<string>>)
    ensures r.Ok? <==> forall i :: 0 <= i < |t| && !t[i].1.Obj? ==> Supported(t[i].1)
  {
    if t == [] then Ok([])
    else
      assert forall i :: 1 <= i < |t| ==> t[i] == t[1..][i - 1];
      if t[0].1.Obj? then KvLines(t[1..])
      else
        var f :- FormatValue(t[0].1);
        var rest :- KvLines(t[1..]);
        Ok([t[0].0 + " = " + f] + rest)
  }

  /** A table every scalar of which can be written, at every depth. */
  predicate TableOk(v: Json.Value)
    decreases v
  {
    v.Obj? ==> forall i :: 0 <= i < |v.fields| ==>
      if v.fields[i].1.Obj? then TableOk(v.fields[i].1) else Supported(v.fields[i].1)
  }

  predicate IsPrefix(a: seq<string>, b: seq<string>) {
    |a| <= |b| && b[..|a|] == a
  }

  /** `write_table`: a blank line unless at the start or after one, the
      `[name]` header, the scalar lines, then each sub-table. */
  function WriteTable(lines: seq<string>, name: string, v: Json.Value): (r: Result<seq<string>>)
    requires v.Obj?
    ensures r.Ok? <==> TableOk(v)
    ensures r.Ok? ==> IsPrefix(lines, r.value)
    decreases v, 1, 0
  {
    var start := if lines != [] && lines[|lines| - 1] != "" then lines + [""] else lines;
    var kv :- KvLines(v.fields);
    var headed := start + ["[" + name + "]"] + kv;
    assert headed[..|lines|] == lines;
    WriteSubtables(headed, name, v, 0)
  }

  /** The sub-table loop of `write_table`, from entry `i` on. */
  function WriteSubtables(lines: seq<string>, name: string, v: Json.Value, i: nat): (r: Result<seq<string>>)
    requires v.Obj? && i <= |v.fields|
    ensures r.Ok? <==> forall j :: i <= j < |v.fields| && v.fields[j].1.Obj? ==> TableOk(v.fields[j].1)
    ensures r.Ok? ==> IsPrefix(lines, r.value)
    decreases v, 0, |v.fields| - i
  {
    if i == |v.fields| then Ok(lines)
    else if v.fields[i].1.Obj? then
      var child := v.fields[i].1;
      assert v.fields[i] in v.fields;
      var written :- WriteTable(lines, name + "." + v.fields[i].0, child);
      var r := WriteSubtables(written, name, v, i + 1);
      assert r.Ok? ==> r.value[..|lines|] == r.value[..|written|][..|lines|];
      r
    else WriteSubtables(lines, name, v, i + 1)
  }

  /** The second loop of `dump_toml` over top-level tables, from entry `i`
      on: a table with scalars is written whole; one without is skipped in
      favour of its sub-tables, each written under its dotted name. */
  function DumpTables(lines: seq<string>, config: Json.Value, i: nat): (r: Result<seq<string>>)
    requires config.Obj? && i <= |config.fields|
    ensures r.Ok? <==> forall j :: i <= j < |config.fields| && config.fields[j].1.Obj? ==> TableOk(config.fields[j].1)
    ensures r.Ok? ==> IsPrefix(lines, r.value)
    decreases |config.fields| - i
  {
    if i == |config.fields| then Ok(lines)
    else
      var (key, value) := config.fields[i];
      if !value.Obj? then DumpTables(lines, config, i + 1)
      else
        var written :- if HasScalars(value.fields) then WriteTable(lines, key, value)
                       else WriteSubtables(lines, key, value, 0);
        assert TableOk(value) <==> (HasScalars(value.fields) ==> TableOk(value)) &&
          (!HasScalars(value.fields) ==> forall j :: 0 <= j < |value.fields| && value.fields[j].1.Obj? ==> TableOk(value.fields[j].1));
        var r := DumpTables(written, config, i + 1);
        assert r.Ok? ==> r.value[..|lines|] == r.value[..|written|][..|lines|];
        r
  }

  /** The lines of `dump_toml`: first the top-level scalars, then the tables. */
  function DumpLines(config: Json.Fields): (r: Result<seq<string>>)
    ensures r.Ok? <==> TableOk(Json.Obj(config))
    ensures r.Ok? ==> KvLines(config).Ok? && IsPrefix(KvLines(config).value, r.value)
  {
    var kv :- KvLines(config);
    DumpTables(kv, Json.Obj(config), 0)
  }

  /** `dump_toml`: the lines joined by newlines, with a final newline. It
      fails exactly when some value at some depth cannot be written, and the
      text starts with the top-level `key = value` lines. */
  function DumpToml(config: Json.Fields): (r: Result<string>)
    ensures r.Ok? <==> TableOk(Json.Obj(config))
    ensures r.Ok? ==> r.value != [] && r.value[|r.value| - 1] == '\n'
    ensures r.Ok? ==> r.value == Text.Join(DumpLines(config).value, "\n") + "\n"
  {
    var lines :- DumpLines(config);
    Ok(Text.Join(lines, "\n") + "\n")
  }
  /** Every entry is a value that can be written, none a table. */
  predicate AllScalars(t: Json.Fields) {
    forall i :: 0 <= i < |t| ==> !t[i].1.Obj? && Supported(t[i].1)
  }

  lemma AllScalarsTail(t: Json.Fields)
    requires t != [] && AllScalars(t)
    ensures !t[0].1.Obj? && Supported(t[0].1) && AllScalars(t[1..])
  {
    assert forall i :: 0 <= i < |t| - 1 ==> t[1..][i] == t[i + 1];
  }

  /** A table of scalars gives one `key = value` line per entry, in order. */
  lemma {:induction false} KvLinesOfScalars(t: Json.Fields)
    requires AllScalars(t)
    ensures KvLines(t).Ok? && |KvLines(t).value| == |t|
    ensures forall i :: 0 <= i < |t| ==> KvLines(t).value[i] == t[i].0 + " = " + FormatValue(t[i].1).value
  {
    if t != [] {
      AllScalarsTail(t);
      KvLinesOfScalars(t[1..]);
      var rest := KvLines(t[1..]).value;
      assert KvLines(t) == Ok([t[0].0 + " = " + FormatValue(t[0].1).value] + rest);
      forall i | 1 <= i < |t|
        ensures KvLines(t).value[i] == t[i].0 + " = " + FormatValue(t[i].1).value
      {
        assert t[1..][i - 1] == t[i];
      }
    }
  }

  /** Without sub-tables from entry `i` on, the sub-table loop writes nothing. */
  lemma {:induction false} NoSubtables(lines: seq<string>, name: string, v: Json.Value, i: nat)
    requires v.Obj? && i <= |v.fields| && forall j :: i <= j < |v.fields| ==> !v.fields[j].1.Obj?
    ensures WriteSubtables(lines, name, v, i) == Ok(lines)
    decreases |v.fields| - i
  {
    if i < |v.fields| {
      NoSubtables(lines, name, v, i + 1);
    }
  }

  /** A table of scalars is written as a blank line (unless at the start or
      after a blank line), its `[name]` header, and one `key = value` line per
      entry. */
  lemma WriteFlatTable(lines: seq<string>, name: string, v: Json.Value)
    requires v.Obj? && AllScalars(v.fields)
    ensures var start := if lines != [] && lines[|lines| - 1] != "" then lines + [""] else lines;
      WriteTable(lines, name, v) == Ok(start + ["[" + name + "]"] + KvLines(v.fields).value)
  {
    KvLinesOfScalars(v.fields);
    var start := if lines != [] && lines[|lines| - 1] != "" then lines + [""] else lines;
    NoSubtables(start + ["[" + name + "]"] + KvLines(v.fields).value, name, v, 0);
  }

  /** Without tables from entry `i` on, the table loop writes nothing. */
  lemma {:induction false} NoTables(lines: seq<string>, config: Json.Value, i: nat)
    requires config.Obj? && i <= |config.fields| && forall j :: i <= j < |config.fields| ==> !config.fields[j].1.Obj?
    ensures DumpTables(lines, config, i) == Ok(lines)
    decreases |config.fields| - i
  {
    if i < |config.fields| {
      NoTables(lines, config, i + 1);
    }
  }

  /** A configuration of scalars is written as its `key = value` lines, one per line. */
  lemma DumpScalars(config: Json.Fields)
    requires AllScalars(config)
    ensures KvLines(config).Ok?
    ensures DumpToml(config) == Ok(Text.Join(KvLines(config).value, "\n") + "\n")
  {
    KvLinesOfScalars(config);
    NoTables(KvLines(config).value, Json.Obj(config), 0);
  }

  /** A configuration holding one table of scalars is written as the
      `[name]` header and then the table's `key = value` lines. */
  lemma DumpOneTable(name: string, fields: Json.Fields)
    requires fields != [] && AllScalars(fields)
    ensures KvLines(fields).Ok?
    ensures DumpToml([(name, Json.Obj(fields))]) == Ok(Text.Join(["[" + name + "]"] + KvLines(fields).value, "\n") + "\n")
  {
    var config := [(name, Json.Obj(fields))];
    KvLinesOfScalars(fields);
    assert KvLines(config) == Ok([]) by {
      assert config[1..] == [];
    }
    assert HasScalars(fields) by {
      assert !fields[0].1.Obj?;
    }
    var written := ["[" + name + "]"] + KvLines(fields).value;
    assert WriteTable([], name, Json.Obj(fields)) == Ok(written) by {
      WriteFlatTable([], name, Json.Obj(fields));
      assert [] + ["[" + name + "]"] + KvLines(fields).value == written;
    }
    assert DumpTables(written, Json.Obj(config), 1) == Ok(written) by {
      NoTables(written, Json.Obj(config), 1);
    }
    assert DumpLines(config) == Ok(written) by {
      assert DumpTables([], Json.Obj(config), 0) == DumpTables(written, Json.Obj(config), 1);
    }
  }

  /** A table holding only one sub-table of scalars is skipped in favour of
      the sub-table, written under the dotted name `[name.sub]`. */
  lemma DumpNestedTable(name: string, sub: string, fields: Json.Fields)
    requires fields != [] && AllScalars(fields)
    ensures KvLines(fields).Ok?
    ensures DumpToml([(name, Json.Obj([(sub, Json.Obj(fields))]))])
         == Ok(Text.Join(["[" + name + "." + sub + "]"] + KvLines(fields).value, "\n") + "\n")
  {
    var inner := Json.Obj([(sub, Json.Obj(fields))]);
    var config := [(name, inner)];
    KvLinesOfScalars(fields);
    assert KvLines(config) == Ok([]) by {
      assert config[1..] == [];
    }
    assert !HasScalars(inner.fields);
    var full := name + "." + sub;
    WriteFlatTable([], full, Json.Obj(fields));
    assert "[" + full + "]" == "[" + name + "." + sub + "]";
    var written := ["[" + name + "." + sub + "]"] + KvLines(fields).value;
    assert [] + ["[" + full + "]"] + KvLines(fields).value == written;
    assert WriteTable([], full, Json.Obj(fields)) == Ok(written);
    assert WriteSubtables(written, name, inner, 1) == Ok(written);
    assert inner.fields[0].0 == sub && inner.fields[0].1 == Json.Obj(fields);
    assert WriteSubtables([], name, inner, 0) == Ok(written);
    NoTables(written, Json.Obj(config), 1);
  }
}

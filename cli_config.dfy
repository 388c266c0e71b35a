/** The `config` command's helpers: reading a dotted key path typed by the
    user, and listing a configuration as dotted paths to its leaf values. */
module CliConfig {
  import opened Wrappers
  import Text
  import Json

  /** A character of `[A-Za-z0-9_-]`. */
  predicate IsKeyChar(c: char) {
    ('A' <= c <= 'Z') || ('a' <= c <= 'z') || ('0' <= c <= '9') || c == '_' || c == '-'
  }

  predicate IsKeySegment(segment: string) {
    segment != [] && forall i :: 0 <= i < |segment| ==> IsKeyChar(segment[i])
  }

  /** The complaint about one segment of the path `raw`, if any. */
  function SegmentError(segment: string, raw: string): (r: Option<string>)
    ensures r.None? <==> IsKeySegment(segment)
  {
    if segment == [] then Some("Invalid key path " + Text.Repr(raw) + "; empty segment.")
    else if !(forall i :: 0 <= i < |segment| ==> IsKeyChar(segment[i])) then
      Some("Invalid key segment " + Text.Repr(segment) + " in " + Text.Repr(raw) + "; use only letters, numbers, '_' or '-'.")
    else None
  }

  /** The complaint about the first bad segment. */
  function FirstSegmentError(segments: seq<string>, raw: string): (r: Option<string>)
    ensures r.None? <==> forall i :: 0 <= i < |segments| ==> IsKeySegment(segments[i])
    ensures r.Some? ==> exists i :: 0 <= i < |segments| && r == SegmentError(segments[i], raw)
                                    && forall j :: 0 <= j < i ==> IsKeySegment(segments[j])
    decreases |segments|
  {
    if segments == [] then None
    else
      var init := segments[..|segments| - 1];
      assert forall i :: 0 <= i < |init| ==> init[i] == segments[i];
      match FirstSegmentError(init, raw)
      case Some(e) => Some(e)
      case None => SegmentError(segments[|segments| - 1], raw)
  }

  const EMPTY_KEY_PATH: string := "Invalid key path; expected a non-empty value."

  /** `_parse_key_path`: the dot-separated segments of the stripped path;
      a blank path, an empty segment or a segment with a character outside
      `[A-Za-z0-9_-]` is refused. */
  function ParseKeyPath(raw: string): (r: Result<seq<string>>)
    ensures Text.AllSpace(raw) ==> r == Err(EMPTY_KEY_PATH)
    ensures r.Ok? ==> r.value != [] && Text.Join(r.value, ".") == Text.Strip(raw)
    ensures r.Ok? ==> forall i :: 0 <= i < |r.value| ==> IsKeySegment(r.value[i])
    ensures r.Err? && !Text.AllSpace(raw) ==>
      exists i :: 0 <= i < |Text.Split(Text.Strip(raw), '.')| && Some(r.error) == SegmentError(Text.Split(Text.Strip(raw), '.')[i], raw)
  {
    var value := Text.Strip(raw);
    if value == [] then Err(EMPTY_KEY_PATH)
    else
      var segments := Text.Split(value, '.');
      Text.JoinSplit(value, '.');
      CheckSegments(segments, raw)
  }

  /** The segments, or the complaint about the first bad one. */
  function CheckSegments(segments: seq<string>, raw: string): (r: Result<seq<string>>)
    ensures r.Ok? ==> r.value == segments && forall i :: 0 <= i < |segments| ==> IsKeySegment(segments[i])
    ensures r.Err? ==> exists i :: 0 <= i < |segments| && Some(r.error) == SegmentError(segments[i], raw)
  {
    match FirstSegmentError(segments, raw)
    case Some(e) => Err(e)
    case None => Ok(segments)
  }

  /** The first error of a prefix is the first error of the whole. */
  lemma {:induction false} FirstErrorPrefix(segments: seq<string>, k: nat, raw: string)
    requires k <= |segments| && FirstSegmentError(segments[..k], raw).Some?
    ensures FirstSegmentError(segments, raw) == FirstSegmentError(segments[..k], raw)
    decreases |segments| - k
  {
    if k < |segments| {
      assert segments[..k + 1][..k] == segments[..k];
      FirstErrorPrefix(segments, k + 1, raw);
    } else {
      assert segments[..k] == segments;
    }
  }

  /** The validating loop of `_parse_key_path`. */
  method ParseKeyPathLoop(raw: string) returns (r: Result<seq<string>>)
    ensures r == ParseKeyPath(raw)
  {
    var value := Text.Strip(raw);
    if value == [] {
      return Err(EMPTY_KEY_PATH);
    }
    var segments := Text.Split(value, '.');
    var e := CheckSegmentsLoop(segments, raw);
    ParseKeyPathSegments(raw);
    if e.Some? {
      return Err(e.value);
    }
    return Ok(segments);
  }

  /** The loop of `_parse_key_path` over the segments: the first complaint, if any. */
  method CheckSegmentsLoop(segments: seq<string>, raw: string) returns (e: Option<string>)
    ensures e == FirstSegmentError(segments, raw)
  {
    for k := 0 to |segments|
      invariant FirstSegmentError(segments[..k], raw).None?
    {
      FirstErrorSnoc(segments, k, raw);
      e := SegmentError(segments[k], raw);
      if e.Some? {
        FirstErrorPrefix(segments, k + 1, raw);
        return;
      }
    }
    assert segments[..|segments|] == segments;
    return None;
  }

  /** One more segment: its complaint, unless an earlier one complained. */
  lemma FirstErrorSnoc(segments: seq<string>, k: nat, raw: string)
    requires k < |segments|
    ensures FirstSegmentError(segments[..k + 1], raw)
         == if FirstSegmentError(segments[..k], raw).Some? then FirstSegmentError(segments[..k], raw)
            else SegmentError(segments[k], raw)
  {
    assert segments[..k + 1][..k] == segments[..k];
  }

  /** A path that is not blank is read by its segments. */
  lemma ParseKeyPathSegments(raw: string)
    requires Text.Strip(raw) != []
    ensures var segments := Text.Split(Text.Strip(raw), '.');
            ParseKeyPath(raw) == if FirstSegmentError(segments, raw).Some? then Err(FirstSegmentError(segments, raw).value)
                                 else Ok(segments)
  {
  }

  lemma KeySegmentsHaveNoDot(segments: seq<string>)
    requires forall i :: 0 <= i < |segments| ==> IsKeySegment(segments[i])
    ensures forall i :: 0 <= i < |segments| ==> '.' !in segments[i]
  {
    forall i | 0 <= i < |segments|
      ensures '.' !in segments[i]
    {
      forall j | 0 <= j < |segments[i]| ensures segments[i][j] != '.' {
        assert IsKeyChar(segments[i][j]);
      }
    }
  }

  lemma KeyCharNotSpace(c: char)
    requires IsKeyChar(c)
    ensures !Text.IsSpace(c)
  {
  }

  /** Key segments joined with dots need no stripping. */
  lemma KeyPathTight(segments: seq<string>)
    requires segments != []
    requires forall i :: 0 <= i < |segments| ==> IsKeySegment(segments[i])
    ensures Text.Strip(Text.Join(segments, ".")) == Text.Join(segments, ".") != []
  {
    var joined := Text.Join(segments, ".");
    var first := segments[0];
    var last := segments[|segments| - 1];
    SegmentEnds(first);
    SegmentEnds(last);
    Text.JoinEndChars(segments, ".");
    assert Text.Join(segments, ".")[|Text.Join(segments, ".")| - 1] == segments[|segments| - 1][|segments[|segments| - 1]| - 1];
    Text.StripTight(joined);
  }

  /** A key segment neither starts nor ends with white space. */
  lemma SegmentEnds(segment: string)
    requires IsKeySegment(segment)
    ensures segment != [] && !Text.IsSpace(segment[0]) && !Text.IsSpace(segment[|segment| - 1])
  {
    KeyCharNotSpace(segment[0]);
    KeyCharNotSpace(segment[|segment| - 1]);
  }

  /** Segments of key characters, joined with dots, read back as themselves. */
  lemma KeyPathRoundTrip(segments: seq<string>)
    requires segments != []
    requires forall i :: 0 <= i < |segments| ==> IsKeySegment(segments[i])
    ensures ParseKeyPath(Text.Join(segments, ".")) == Ok(segments)
  {
    var joined := Text.Join(segments, ".");
    KeyPathTight(segments);
    KeySegmentsHaveNoDot(segments);
    Text.SplitJoin(segments, '.');
    assert Text.Split(Text.Strip(joined), '.') == segments;
    ParseKeyPathSegments(joined);
    assert FirstSegmentError(segments, joined).None?;
  }

  /** Sorted by key, as `sorted(node)` orders a dict's keys. */
  predicate SortedByKey(entries: Json.Fields) {
    forall i, j :: 0 <= i < j < |entries| ==> Text.StrLe(entries[i].0, entries[j].0)
  }

  function InsertByKey(e: (string, Json.Value), entries: Json.Fields): (r: Json.Fields)
    requires SortedByKey(entries)
    ensures SortedByKey(r)
    ensures multiset(r) == multiset(entries) + multiset{e}
    decreases |entries|
  {
    if entries == [] then [e]
    else if Text.StrLe(e.0, entries[0].0) then
      InsertAtHead(e, entries);
      [e] + entries
    else
      Text.StrLeTotal(e.0, entries[0].0);
      var tail := entries[1..];
      assert SortedByKey(tail) by { SortedTail(entries); }
      var rest := InsertByKey(e, tail);
      InsertAfterHead(entries, e, tail, rest);
      [entries[0]] + rest
  }

  lemma SortedTail(entries: Json.Fields)
    requires entries != [] && SortedByKey(entries)
    ensures SortedByKey(entries[1..])
  {
    forall i, j | 0 <= i < j < |entries| - 1
      ensures Text.StrLe(entries[1..][i].0, entries[1..][j].0)
    {
      assert entries[1..][i] == entries[i + 1] && entries[1..][j] == entries[j + 1];
    }
  }

  /** A key no greater than the first key may go in front. */
  lemma InsertAtHead(e: (string, Json.Value), entries: Json.Fields)
    requires entries != [] && SortedByKey(entries) && Text.StrLe(e.0, entries[0].0)
    ensures SortedByKey([e] + entries)
  {
    forall i, j | 0 <= i < j < |entries| + 1
      ensures Text.StrLe(([e] + entries)[i].0, ([e] + entries)[j].0)
    {
      if i == 0 {
        if j > 1 { Text.StrLeTrans(e.0, entries[0].0, entries[j - 1].0); }
      }
    }
  }

  /** Inserting behind a first key that is smaller keeps that key in front. */
  lemma InsertAfterHead(entries: Json.Fields, e: (string, Json.Value), tail: Json.Fields, rest: Json.Fields)
    requires entries != [] && SortedByKey(entries) && tail == entries[1..]
    requires Text.StrLe(entries[0].0, e.0)
    requires SortedByKey(rest) && multiset(rest) == multiset(tail) + multiset{e}
    ensures SortedByKey([entries[0]] + rest)
    ensures multiset([entries[0]] + rest) == multiset(entries) + multiset{e}
  {
    assert entries == [entries[0]] + tail;
    forall j | 0 <= j < |rest|
      ensures Text.StrLe(entries[0].0, rest[j].0)
    {
      assert rest[j] in multiset(rest);
      if rest[j] != e {
        assert rest[j] in multiset(tail);
        var k :| 0 <= k < |tail| && tail[k] == rest[j];
        assert entries[k + 1] == rest[j];
      }
    }
    forall i, j | 0 <= i < j < |rest| + 1
      ensures Text.StrLe(([entries[0]] + rest)[i].0, ([entries[0]] + rest)[j].0)
    {
      if i > 0 {
        assert ([entries[0]] + rest)[i] == rest[i - 1];
      }
    }
  }

  /** A dict's entries in the order of their keys. */
  function SortByKey(entries: Json.Fields): (r: Json.Fields)
    ensures SortedByKey(r)
    ensures multiset(r) == multiset(entries)
    decreases |entries|
  {
    if entries == [] then []
    else
      assert entries == [entries[0]] + entries[1..];
      InsertByKey(entries[0], SortByKey(entries[1..]))
  }

  /** `f"{prefix}.{key}" if prefix else key`. */
  function DotPath(prefix: string, key: string): string {
    if prefix != [] then prefix + "." + key else key
  }

  /** `_walk`: a dict is walked key by key in sorted order, descending into
      nested dicts; a value reached below the top is listed under its path. */
  function Walk(node: Json.Value, prefix: string): (r: seq<(string, Json.Value)>)
    ensures forall i :: 0 <= i < |r| ==> !r[i].1.Obj?
    decreases node, 1
  {
    if node.Obj? then WalkEntries(node, SortByKey(node.fields), prefix)
    else if prefix != [] then [(prefix, node)]
    else []
  }

  /** The loop of `_walk` over the sorted entries of the dict `node`. */
  function WalkEntries(node: Json.Value, entries: Json.Fields, prefix: string): (r: seq<(string, Json.Value)>)
    requires node.Obj? && multiset(entries) <= multiset(node.fields)
    ensures forall i :: 0 <= i < |r| ==> !r[i].1.Obj?
    decreases node, 0, |entries|
  {
    if entries == [] then []
    else
      assert entries[0] in multiset(node.fields);
      assert entries == [entries[0]] + entries[1..];
      var path := DotPath(prefix, entries[0].0);
      var value := entries[0].1;
      (if value.Obj? then Walk(value, path) else [(path, value)]) + WalkEntries(node, entries[1..], prefix)
  }

  /** `_flatten_config`. */
  function FlattenConfig(config: Json.Fields): (r: seq<(string, Json.Value)>)
    ensures forall i :: 0 <= i < |r| ==> !r[i].1.Obj?
  {
    Walk(Json.Obj(config), [])
  }

  /** A table with no nested table lists exactly its own entries, in key order. */
  lemma {:induction false} FlatEntriesListed(node: Json.Value, entries: Json.Fields)
    requires node.Obj? && multiset(entries) <= multiset(node.fields)
    requires forall i :: 0 <= i < |entries| ==> !entries[i].1.Obj?
    ensures WalkEntries(node, entries, []) == entries
    decreases |entries|
  {
    if entries != [] {
      assert multiset(entries[1..]) <= multiset(entries) by {
        assert entries == [entries[0]] + entries[1..];
      }
      FlatEntriesListed(node, entries[1..]);
      assert entries == [entries[0]] + entries[1..];
    }
  }

  /** A configuration without tables lists its entries sorted by key: every
      entry once, nothing else. */
  lemma FlatConfigSorted(config: Json.Fields)
    requires forall i :: 0 <= i < |config| ==> !config[i].1.Obj?
    ensures SortedByKey(FlattenConfig(config))
    ensures multiset(FlattenConfig(config)) == multiset(config)
  {
    var sorted := SortByKey(config);
    forall i | 0 <= i < |sorted|
      ensures !sorted[i].1.Obj?
    {
      assert sorted[i] in multiset(config);
    }
    FlatEntriesListed(Json.Obj(config), sorted);
  }

  lemma WalkEntriesStep(node: Json.Value, entries: Json.Fields, k: nat, prefix: string)
    requires node.Obj? && k < |entries| && multiset(entries[k..]) <= multiset(node.fields)
    ensures entries[k] in node.fields
    ensures multiset(entries[k + 1..]) <= multiset(node.fields)
    ensures WalkEntries(node, entries[k..], prefix)
         == (if entries[k].1.Obj? then Walk(entries[k].1, DotPath(prefix, entries[k].0)) else [(DotPath(prefix, entries[k].0), entries[k].1)])
            + WalkEntries(node, entries[k + 1..], prefix)
  {
    assert entries[k..] == [entries[k]] + entries[k + 1..];
    assert entries[k] in multiset(node.fields);
  }

  /** `node` holds `v` under the keys `keys`: each key names an entry of a
      dict, and the value under the last one is `v`. */
  predicate Reaches(node: Json.Value, keys: seq<string>, v: Json.Value)
    decreases |keys|
  {
    if keys == [] then node == v
    else node.Obj? && exists i :: 0 <= i < |node.fields| && node.fields[i].0 == keys[0] && Reaches(node.fields[i].1, keys[1..], v)
  }

  /** The dotted path of `keys` below `prefix`. */
  function DottedFrom(prefix: string, keys: seq<string>): string
    decreases |keys|
  {
    if keys == [] then prefix else DottedFrom(DotPath(prefix, keys[0]), keys[1..])
  }

  /** What `_walk` lists for one entry of a dict. */
  function EntryItems(e: (string, Json.Value), prefix: string): seq<(string, Json.Value)>
  {
    if e.1.Obj? then Walk(e.1, DotPath(prefix, e.0)) else [(DotPath(prefix, e.0), e.1)]
  }

  /** The items of any entry are among the items of the loop. */
  lemma {:induction false} WalkEntriesHas(node: Json.Value, entries: Json.Fields, prefix: string, k: nat, x: (string, Json.Value))
    requires node.Obj? && multiset(entries) <= multiset(node.fields)
    requires k < |entries| && x in EntryItems(entries[k], prefix)
    ensures x in WalkEntries(node, entries, prefix)
    decreases k
  {
    WalkEntriesHead(node, entries, prefix);
    if k > 0 {
      assert entries[1..][k - 1] == entries[k];
      WalkEntriesHas(node, entries[1..], prefix, k - 1, x);
    }
  }

  /** The loop lists the first entry's items, then those of the rest. */
  lemma WalkEntriesHead(node: Json.Value, entries: Json.Fields, prefix: string)
    requires node.Obj? && entries != [] && multiset(entries) <= multiset(node.fields)
    ensures multiset(entries[1..]) <= multiset(node.fields)
    ensures WalkEntries(node, entries, prefix) == EntryItems(entries[0], prefix) + WalkEntries(node, entries[1..], prefix)
  {
    WalkEntriesStep(node, entries, 0, prefix);
    assert entries[0..] == entries;
  }

  /** Every item of the loop comes from one of the entries. */
  lemma {:induction false} WalkEntriesFrom(node: Json.Value, entries: Json.Fields, prefix: string, x: (string, Json.Value))
    requires node.Obj? && multiset(entries) <= multiset(node.fields)
    requires x in WalkEntries(node, entries, prefix)
    ensures exists k :: 0 <= k < |entries| && x in EntryItems(entries[k], prefix)
    decreases |entries|
  {
    WalkEntriesHead(node, entries, prefix);
    if x !in EntryItems(entries[0], prefix) {
      WalkEntriesFrom(node, entries[1..], prefix, x);
      var k :| 0 <= k < |entries[1..]| && x in EntryItems(entries[1..][k], prefix);
      assert entries[1..][k] == entries[k + 1];
    }
  }

  /** Every leaf value reached by a path of keys is listed under its dotted path. */
  lemma {:induction false} WalkListsLeaf(node: Json.Value, prefix: string, keys: seq<string>, v: Json.Value)
    requires Reaches(node, keys, v) && !v.Obj? && (keys != [] || prefix != [])
    ensures (DottedFrom(prefix, keys), v) in Walk(node, prefix)
    decreases |keys|
  {
    if keys != [] {
      var i :| 0 <= i < |node.fields| && node.fields[i].0 == keys[0] && Reaches(node.fields[i].1, keys[1..], v);
      var e := node.fields[i];
      var path := DotPath(prefix, keys[0]);
      var entries := SortByKey(node.fields);
      assert e in multiset(entries);
      var k :| 0 <= k < |entries| && entries[k] == e;
      assert DottedFrom(prefix, keys) == DottedFrom(path, keys[1..]);
      if e.1.Obj? {
        WalkListsLeaf(e.1, path, keys[1..], v);
        assert EntryItems(e, prefix) == Walk(e.1, path);
      } else {
        assert keys[1..] == [] && e.1 == v;
        assert EntryItems(e, prefix) == [(path, v)];
      }
      WalkEntriesHas(node, entries, prefix, k, (DottedFrom(prefix, keys), v));
    }
  }

  /** Every listed item is a leaf value, listed under the dotted path of keys that reaches it. */
  lemma {:induction false} WalkListsOnlyLeaves(node: Json.Value, prefix: string, x: (string, Json.Value))
    requires x in Walk(node, prefix)
    ensures !x.1.Obj?
    ensures exists keys :: (keys != [] || prefix != []) && Reaches(node, keys, x.1) && DottedFrom(prefix, keys) == x.0
    decreases node
  {
    if !node.Obj? {
      assert Reaches(node, [], x.1) && DottedFrom(prefix, []) == x.0;
    } else {
      var entries := SortByKey(node.fields);
      WalkEntriesFrom(node, entries, prefix, x);
      var k :| 0 <= k < |entries| && x in EntryItems(entries[k], prefix);
      var e := entries[k];
      assert e in multiset(node.fields);
      var i :| 0 <= i < |node.fields| && node.fields[i] == e;
      var path := DotPath(prefix, e.0);
      var tail: seq<string> := [];
      if e.1.Obj? {
        WalkListsOnlyLeaves(e.1, path, x);
        tail :| (tail != [] || path != []) && Reaches(e.1, tail, x.1) && DottedFrom(path, tail) == x.0;
      } else {
        assert Reaches(e.1, tail, x.1) && DottedFrom(path, tail) == x.0;
      }
      ReachesCons(node, i, tail, x.1);
      DottedCons(prefix, e.0, tail);
      assert ([e.0] + tail != [] || prefix != []) && Reaches(node, [e.0] + tail, x.1) && DottedFrom(prefix, [e.0] + tail) == x.0;
    }
  }

  /** A path into a child, prefixed by the child's key, reaches the same value from the parent. */
  lemma ReachesCons(node: Json.Value, i: nat, tail: seq<string>, v: Json.Value)
    requires node.Obj? && i < |node.fields| && Reaches(node.fields[i].1, tail, v)
    ensures Reaches(node, [node.fields[i].0] + tail, v)
  {
    var keys := [node.fields[i].0] + tail;
    assert keys[0] == node.fields[i].0 && keys[1..] == tail;
  }

  /** The dotted path of a key followed by more keys. */
  lemma DottedCons(prefix: string, key: string, tail: seq<string>)
    ensures DottedFrom(prefix, [key] + tail) == DottedFrom(DotPath(prefix, key), tail)
  {
    var keys := [key] + tail;
    assert keys[0] == key && keys[1..] == tail;
  }

  /** `_flatten_config` lists exactly the leaf values of the configuration,
      each under the dotted path of the keys that reach it. */
  lemma FlattenConfigLeaves(config: Json.Fields, p: string, v: Json.Value)
    ensures (p, v) in FlattenConfig(config) <==>
      !v.Obj? && exists keys :: keys != [] && Reaches(Json.Obj(config), keys, v) && DottedFrom([], keys) == p
  {
    if (p, v) in FlattenConfig(config) {
      WalkListsOnlyLeaves(Json.Obj(config), [], (p, v));
    }
    if !v.Obj? && exists keys :: keys != [] && Reaches(Json.Obj(config), keys, v) && DottedFrom([], keys) == p {
      var keys :| keys != [] && Reaches(Json.Obj(config), keys, v) && DottedFrom([], keys) == p;
      WalkListsLeaf(Json.Obj(config), [], keys, v);
    }
  }

  /** The recursion of `_walk`, written as a recursive method that appends to `items`. */
  method WalkInto(node: Json.Value, prefix: string, items0: seq<(string, Json.Value)>) returns (items: seq<(string, Json.Value)>)
    ensures items == items0 + Walk(node, prefix)
    decreases node
  {
    items := items0;
    if node.Obj? {
      var entries := SortByKey(node.fields);
      assert entries[0..] == entries;
      for k := 0 to |entries|
        invariant multiset(entries[k..]) <= multiset(node.fields)
        invariant items + WalkEntries(node, entries[k..], prefix) == items0 + Walk(node, prefix)
      {
        WalkEntriesStep(node, entries, k, prefix);
        var key := entries[k].0;
        var value := entries[k].1;
        var path := DotPath(prefix, key);
        ghost var rest := WalkEntries(node, entries[k + 1..], prefix);
        ghost var here := if value.Obj? then Walk(value, path) else [(path, value)];
        ghost var before := items;
        if value.Obj? {
          items := WalkInto(value, path, items);
        } else {
          items := items + [(path, value)];
        }
        Text.AppendAssoc(before, here, rest);
      }
    } else if prefix != [] {
      items := items + [(prefix, node)];
    }
  }
}

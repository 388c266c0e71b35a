/** The Python string operations the system relies on, written out on
    `seq<char>`: `strip`, `lstrip`, `rstrip`, `split()` on whitespace,
    `split(sep)`, `splitlines`, `join`, `lower`, `startswith` and decimal
    rendering of integers. Whitespace is the set of characters for which
    `str.isspace()` holds; line boundaries are those of `str.splitlines()`. */
module Text {
  import opened Wrappers

  /** Characters for which Python's `str.isspace()` is true. */
  predicate IsSpace(c: char) {
    c == ' ' || ('\t' <= c <= '\r') || ('\U{1C}' <= c <= '\U{1F}') || c == '\U{85}' || c == '\U{A0}'
    || c == '\U{1680}' || ('\U{2000}' <= c <= '\U{200A}') || c == '\U{2028}' || c == '\U{2029}'
    || c == '\U{202F}' || c == '\U{205F}' || c == '\U{3000}'
  }

  /** Whitespace stripped by `bytes.strip()`: ASCII space, tab, newline, carriage return, vertical tab, form feed. */
  predicate IsAsciiSpace(c: char) {
    c == ' ' || ('\t' <= c <= '\r')
  }

  /** Characters at which `str.splitlines()` ends a line. */
  predicate IsLineBreak(c: char) {
    c == '\n' || c == '\r' || c == '\U{0B}' || c == '\U{0C}' || ('\U{1C}' <= c <= '\U{1E}')
    || c == '\U{85}' || c == '\U{2028}' || c == '\U{2029}'
  }

  /** Python's `repr` of a string holding no quote or backslash: the string in single quotes. */
  function Repr(s: string): string {
    "'" + s + "'"
  }

  /** `r` occurs in `s` at position `a`. */
  predicate SliceAt(s: string, a: int, r: string) {
    0 <= a && a + |r| <= |s| && s[a..a + |r|] == r
  }

  /** Every character of `s` satisfies `ws`. */
  predicate AllIn(s: string, ws: char -> bool) {
    forall i :: 0 <= i < |s| ==> ws(s[i])
  }

  predicate AllSpace(s: string) {
    AllIn(s, IsSpace)
  }

  predicate NoSpace(s: string) {
    forall i :: 0 <= i < |s| ==> !IsSpace(s[i])
  }

  /** Removes leading characters that satisfy `ws`: what is left is a suffix
      that does not start with such a character, and everything removed satisfies `ws`. */
  function LStripBy(s: string, ws: char -> bool): (r: string)
    ensures |r| <= |s| && r == s[|s| - |r|..]
    ensures AllIn(s[..|s| - |r|], ws)
    ensures r == [] || !ws(r[0])
  {
    if s != [] && ws(s[0]) then
      var t := LStripBy(s[1..], ws);
      LStripByStep(s, ws, t);
      t
    else s
  }

  /** One more leading character that satisfies `ws`, in front of what was stripped. */
  lemma LStripByStep(s: string, ws: char -> bool, t: string)
    requires s != [] && ws(s[0])
    requires |t| <= |s| - 1 && t == s[1..][|s| - 1 - |t|..]
    requires AllIn(s[1..][..|s| - 1 - |t|], ws)
    ensures t == s[|s| - |t|..]
    ensures AllIn(s[..|s| - |t|], ws)
  {
    var k := |s| - |t|;
    assert s[..k] == [s[0]] + s[1..][..k - 1];
    forall i | 0 <= i < k ensures ws(s[..k][i]) {
      if i > 0 {
        assert s[..k][i] == s[1..][..k - 1][i - 1];
      }
    }
  }

  /** Removes trailing characters that satisfy `ws`, symmetrically to `LStripBy`. */
  function RStripBy(s: string, ws: char -> bool): (r: string)
    ensures |r| <= |s| && r == s[..|r|]
    ensures AllIn(s[|r|..], ws)
    ensures r == [] || !ws(r[|r| - 1])
  {
    if s != [] && ws(s[|s| - 1]) then RStripBy(s[..|s| - 1], ws) else s
  }

  /** Removes characters that satisfy `ws` at both ends: the result is a slice of
      `s` with no such character at either end, everything cut off satisfies
      `ws`, and the result is empty exactly when every character of `s` does. */
  function StripBy(s: string, ws: char -> bool): (r: string)
    ensures |r| <= |s|
    ensures r == [] || (!ws(r[0]) && !ws(r[|r| - 1]))
    ensures r == [] <==> AllIn(s, ws)
  {
    var l := LStripBy(s, ws);
    var r := RStripBy(l, ws);
    var a := |s| - |l|;
    assert r == [] ==> s == s[..a] + l && l == l[|r|..];
    assert r != [] ==> s[a] == r[0] && l[0] == r[0];
    r
  }

  /** What `StripBy` cuts off lies at the two ends of `s`, and all of it satisfies `ws`. */
  lemma StripBySlice(s: string, ws: char -> bool)
    ensures var r := StripBy(s, ws);
      exists a :: SliceAt(s, a, r) && AllIn(s[..a], ws) && AllIn(s[a + |r|..], ws)
  {
    var l := LStripBy(s, ws);
    var r := RStripBy(l, ws);
    var a := |s| - |l|;
    assert r == s[a..a + |r|];
    assert s[a + |r|..] == l[|r|..];
    assert SliceAt(s, a, r);
  }

  /** `s.lstrip()`. */
  function LStrip(s: string): (r: string)
    ensures |r| <= |s| && r == s[|s| - |r|..]
    ensures AllSpace(s[..|s| - |r|])
    ensures r == [] || !IsSpace(r[0])
  {
    LStripBy(s, IsSpace)
  }

  /** `s.strip()`. */
  function Strip(s: string): (r: string)
    ensures |r| <= |s|
    ensures r == [] || (!IsSpace(r[0]) && !IsSpace(r[|r| - 1]))
    ensures r == [] <==> AllSpace(s)
  {
    var t := StripBy(s, IsSpace);
    assert t == [] <==> AllIn(s, IsSpace);
    assert t == [] || (!IsSpace(t[0]) && !IsSpace(t[|t| - 1]));
    t
  }

  /** `bytes.strip()` on a raw line: ASCII whitespace only. */
  function AsciiStrip(s: string): (r: string)
    ensures |r| <= |s|
    ensures r == [] || (!IsAsciiSpace(r[0]) && !IsAsciiSpace(r[|r| - 1]))
    ensures r == [] <==> AllIn(s, IsAsciiSpace)
  {
    var t := StripBy(s, IsAsciiSpace);
    assert t == [] <==> AllIn(s, IsAsciiSpace);
    assert t == [] || (!IsAsciiSpace(t[0]) && !IsAsciiSpace(t[|t| - 1]));
    t
  }

  /** Length of the leading run of non-whitespace characters. */
  function WordLen(s: string): (n: nat)
    ensures n <= |s|
    ensures NoSpace(s[..n])
    ensures n == |s| || IsSpace(s[n])
  {
    if s == [] || IsSpace(s[0]) then 0 else 1 + WordLen(s[1..])
  }

  /** `s.split()`: the maximal runs of non-whitespace characters, in order. */
  function Words(s: string): (r: seq<string>)
    ensures forall i :: 0 <= i < |r| ==> r[i] != [] && NoSpace(r[i])
    decreases |s|
  {
    if s == [] then []
    else if IsSpace(s[0]) then Words(s[1..])
    else
      var n := WordLen(s);
      assert n >= 1 && s[..n][0] == s[0];
      [s[..n]] + Words(s[n..])
  }

  /** A string without whitespace is a single word of itself. */
  lemma {:induction false} WordsOfWord(w: string)
    requires w != [] && NoSpace(w)
    ensures Words(w) == [w]
  {
    var n := WordLen(w);
    assert w[..n] == w;
    assert w[n..] == [];
  }

  lemma {:induction false} WordLenOfWord(w: string, rest: string)
    requires NoSpace(w)
    requires rest == [] || IsSpace(rest[0])
    ensures WordLen(w + rest) == |w|
  {
    if w != [] {
      assert (w + rest)[0] == w[0] && (w + rest)[1..] == w[1..] + rest;
      WordLenOfWord(w[1..], rest);
    } else {
      assert w + rest == rest;
    }
  }

  /** A word followed by whitespace (or nothing) is the first word. */
  lemma WordsPrefix(w: string, rest: string)
    requires w != [] && NoSpace(w)
    requires rest == [] || IsSpace(rest[0])
    ensures Words(w + rest) == [w] + Words(rest)
  {
    WordLenOfWord(w, rest);
    var s := w + rest;
    assert s[..|w|] == w && s[|w|..] == rest;
  }

  /** Joining words with single spaces and splitting on whitespace gives the words back. */
  lemma {:induction false} WordsJoin(ws: seq<string>)
    requires forall i :: 0 <= i < |ws| ==> ws[i] != [] && NoSpace(ws[i])
    ensures Words(Join(ws, " ")) == ws
  {
    if |ws| == 1 {
      WordsOfWord(ws[0]);
    } else if |ws| > 1 {
      var tail := Join(ws[1..], " ");
      WordsJoin(ws[1..]);
      WordsPrefix(ws[0], " " + tail);
      assert ws[0] + " " + tail == ws[0] + (" " + tail);
      assert (" " + tail)[1..] == tail;
    }
  }

  /** Stripping a string that has no whitespace at either end changes nothing. */
  lemma StripTight(s: string)
    requires s == [] || (!IsSpace(s[0]) && !IsSpace(s[|s| - 1]))
    ensures Strip(s) == s
  {
  }

  lemma {:induction false} LStripLeading(sp: string, s: string)
    requires AllSpace(sp)
    requires s == [] || !IsSpace(s[0])
    ensures LStripBy(sp + s, IsSpace) == s
  {
    if sp == [] {
      assert sp + s == s;
    } else {
      assert (sp + s)[0] == sp[0] && (sp + s)[1..] == sp[1..] + s;
      LStripLeading(sp[1..], s);
    }
  }

  /** Leading whitespace before a tight string is stripped away. */
  lemma StripLeading(sp: string, s: string)
    requires AllSpace(sp)
    requires s != [] && !IsSpace(s[0]) && !IsSpace(s[|s| - 1])
    ensures Strip(sp + s) == s
  {
    LStripLeading(sp, s);
  }

  /** Index of the first occurrence of `c` in `s`. */
  function IndexOf(s: string, c: char): (r: Option<nat>)
    ensures r.Some? ==> r.value < |s| && s[r.value] == c && c !in s[..r.value]
    ensures r.None? ==> c !in s
  {
    if s == [] then None
    else if s[0] == c then Some(0)
    else
      var t := IndexOf(s[1..], c);
      assert s[1..] == s[1..][..];
      if t.Some? then (assert s[..t.value + 1] == [s[0]] + s[1..][..t.value]; Some(t.value + 1)) else None
  }

  /** `s.split(sep)` for a one-character separator: never empty, and no part holds `sep`. */
  function Split(s: string, sep: char): (r: seq<string>)
    ensures |r| >= 1
    ensures forall i :: 0 <= i < |r| ==> sep !in r[i]
    decreases |s|
  {
    match IndexOf(s, sep)
    case None => [s]
    case Some(i) => [s[..i]] + Split(s[i + 1..], sep)
  }

  /** `sep.join(parts)`. */
  function Join(parts: seq<string>, sep: string): (r: string)
    ensures |parts| == 1 ==> r == parts[0]
    ensures parts == [] ==> r == []
  {
    if parts == [] then []
    else if |parts| == 1 then parts[0]
    else parts[0] + sep + Join(parts[1..], sep)
  }

  lemma JoinCons(a: string, rest: seq<string>, sep: string)
    requires |rest| >= 1
    ensures Join([a] + rest, sep) == a + sep + Join(rest, sep)
  {
    assert ([a] + rest)[1..] == rest;
  }

  /** The split at the first separator: the part before it, then the split of the rest. */
  lemma {:induction false} JoinSplitStep(s: string, sep: char, i: nat)
    requires IndexOf(s, sep) == Some(i)
    ensures Join(Split(s, sep), [sep]) == s
    decreases |s|, 0
  {
    var tail := s[i + 1..];
    JoinSplit(tail, sep);
    SplitAt(s, sep, i);
    JoinCons(s[..i], Split(tail, sep), [sep]);
    Around(s, i, sep);
  }

  lemma SplitAt(s: string, sep: char, i: nat)
    requires IndexOf(s, sep) == Some(i)
    ensures i < |s| && Split(s, sep) == [s[..i]] + Split(s[i + 1..], sep)
  {
  }

  lemma Around(s: string, i: nat, sep: char)
    requires i < |s| && s[i] == sep
    ensures s == s[..i] + [sep] + s[i + 1..]
  {
  }

  /** Joining the parts of a split with the separator restores the string. */
  lemma {:induction false} JoinSplit(s: string, sep: char)
    ensures Join(Split(s, sep), [sep]) == s
    decreases |s|, 1
  {
    var k := IndexOf(s, sep);
    if k.Some? {
      JoinSplitStep(s, sep, k.value);
    } else {
      SplitWithout(s, sep);
    }
  }

  lemma SplitWithout(s: string, sep: char)
    requires IndexOf(s, sep).None?
    ensures Join(Split(s, sep), [sep]) == s
  {
    assert Split(s, sep) == [s];
  }

  /** Splitting a join on a separator that occurs in no part gives the parts back. */
  lemma {:induction false} SplitJoin(parts: seq<string>, sep: char)
    requires |parts| >= 1
    requires forall i :: 0 <= i < |parts| ==> sep !in parts[i]
    ensures Split(Join(parts, [sep]), sep) == parts
    decreases |parts|
  {
    if |parts| > 1 {
      var rest := parts[1..];
      var t := Join(rest, [sep]);
      var s := Join(parts, [sep]);
      JoinCons(parts[0], rest, [sep]);
      assert parts == [parts[0]] + rest;
      assert s == parts[0] + [sep] + t;
      var k := |parts[0]|;
      assert s[k] == sep && s[..k] == parts[0];
      assert IndexOf(s, sep) == Some(k);
      assert s[k + 1..] == t;
      SplitJoin(rest, sep);
    }
  }

  /** A join starts with its first part. */
  lemma JoinFirst(parts: seq<string>, sep: string)
    requires |parts| >= 1
    ensures StartsWith(Join(parts, sep), parts[0])
  {
  }

  /** A join ends with its last part. */
  lemma {:induction false} JoinLast(parts: seq<string>, sep: string)
    requires |parts| >= 1
    ensures EndsWith(Join(parts, sep), parts[|parts| - 1])
    decreases |parts|
  {
    if |parts| > 1 {
      JoinLast(parts[1..], sep);
    }
  }

  /** The first and last characters of a join whose end parts are non-empty. */
  lemma JoinEndChars(parts: seq<string>, sep: string)
    requires |parts| >= 1 && parts[0] != [] && parts[|parts| - 1] != []
    ensures Join(parts, sep) != [] && Join(parts, sep)[0] == parts[0][0]
    ensures Join(parts, sep)[|Join(parts, sep)| - 1] == parts[|parts| - 1][|parts[|parts| - 1]| - 1]
  {
    var j := Join(parts, sep);
    var last := parts[|parts| - 1];
    JoinFirst(parts, sep);
    JoinLast(parts, sep);
    assert j[..|parts[0]|][0] == j[0];
    assert j[|j| - |last|..][|last| - 1] == j[|j| - 1];
  }

  /** Concatenation of a sequence of strings. */
  function Concat(parts: seq<string>): string {
    if parts == [] then [] else parts[0] + Concat(parts[1..])
  }

  lemma {:induction false} ConcatAppend(a: seq<string>, b: seq<string>)
    ensures Concat(a + b) == Concat(a) + Concat(b)
  {
    if a == [] {
      assert a + b == b;
    } else {
      assert (a + b)[1..] == a[1..] + b;
      ConcatAppend(a[1..], b);
    }
  }

  /** Moving one element from the front of a tail to the end of a prefix. */
  lemma AppendAssoc<T>(a: seq<T>, b: seq<T>, c: seq<T>)
    ensures (a + b) + c == a + (b + c)
  {
  }

  lemma AppendOne<T>(a: seq<T>, x: T, b: seq<T>)
    ensures a + [x] + b == a + ([x] + b)
  {
  }

  /** A `\r\n` pair starts at position `i`. */
  predicate IsCrLf(s: string, i: int) {
    0 <= i && i + 1 < |s| && s[i] == '\r' && s[i + 1] == '\n'
  }

  /** Where the first line of `s` ends: `content` characters of text and `total`
      characters including its line boundary (`\r\n` counts as one boundary). */
  function LineEnd(s: string): (r: (nat, nat))
    requires s != []
    ensures r.0 <= r.1 <= |s| && 0 < r.1
    ensures forall i :: 0 <= i < r.0 ==> !IsLineBreak(s[i])
    ensures r.0 == |s| ==> r.1 == |s|
    ensures r.0 < |s| ==> IsLineBreak(s[r.0]) && r.1 == r.0 + (if IsCrLf(s, r.0) then 2 else 1)
  {
    if IsLineBreak(s[0]) then
      if IsCrLf(s, 0) then (0, 2) else (0, 1)
    else if |s| == 1 then (1, 1)
    else
      var t := LineEnd(s[1..]);
      (t.0 + 1, t.1 + 1)
  }

  /** `s.splitlines(keepends=True)`: every line with its boundary; no empty trailing line. */
  function SplitLinesKeep(s: string): (r: seq<string>)
    ensures forall i :: 0 <= i < |r| ==> r[i] != []
    ensures Concat(r) == s
    decreases |s|
  {
    if s == [] then []
    else
      var e := LineEnd(s);
      assert s == s[..e.1] + s[e.1..];
      [s[..e.1]] + SplitLinesKeep(s[e.1..])
  }

  /** `s.splitlines()`: the lines without their boundaries. */
  function SplitLines(s: string): (r: seq<string>)
    ensures forall i :: 0 <= i < |r| ==> forall j :: 0 <= j < |r[i]| ==> !IsLineBreak(r[i][j])
    decreases |s|
  {
    if s == [] then []
    else
      var e := LineEnd(s);
      [s[..e.0]] + SplitLines(s[e.1..])
  }

  /** A string without line boundaries is one line of itself (or no line at all when empty). */
  lemma {:induction false} SplitLinesNoBreak(s: string)
    requires forall i :: 0 <= i < |s| ==> !IsLineBreak(s[i])
    ensures SplitLines(s) == if s == [] then [] else [s]
  {
    if s != [] {
      var e := LineEnd(s);
      assert e.0 == |s|;
      assert s[e.1..] == [];
      assert s[..e.0] == s;
      assert SplitLines(s) == [s[..e.0]] + SplitLines(s[e.1..]);
    }
  }

  /** No character of `s` ends a line. */
  predicate NoLineBreak(s: string) {
    forall i :: 0 <= i < |s| ==> !IsLineBreak(s[i])
  }

  /** A line without breaks followed by `\n`: the first line ends at the `\n`. */
  lemma LineEndAtNewline(a: string, b: string)
    requires NoLineBreak(a)
    ensures LineEnd(a + "\n" + b) == (|a|, |a| + 1)
  {
    var s := a + "\n" + b;
    var e := LineEnd(s);
    assert s[|a|] == '\n';
    assert forall i :: 0 <= i < |a| ==> s[i] == a[i];
    assert e.0 == |a|;
    assert !IsCrLf(s, |a|);
  }

  /** `(a + "\n" + b).splitlines()` is `a` followed by the lines of `b`. */
  lemma SplitLinesAfterLine(a: string, b: string)
    requires NoLineBreak(a)
    ensures SplitLines(a + "\n" + b) == [a] + SplitLines(b)
  {
    var s := a + "\n" + b;
    LineEndAtNewline(a, b);
    assert s[..|a|] == a;
    assert s[|a| + 1..] == b;
  }

  /** Joining lines with `\n` and splitting them again gives the lines back,
      provided none holds a break and the last is not empty (a trailing empty
      line is dropped by `splitlines`). */
  lemma {:induction false} SplitLinesJoin(ls: seq<string>)
    requires forall k :: 0 <= k < |ls| ==> NoLineBreak(ls[k])
    requires ls != [] ==> ls[|ls| - 1] != []
    ensures SplitLines(Join(ls, "\n")) == ls
    decreases |ls|
  {
    if |ls| == 1 {
      SplitLinesNoBreak(ls[0]);
    } else if |ls| > 1 {
      JoinCons(ls[0], ls[1..], "\n");
      assert [ls[0]] + ls[1..] == ls;
      SplitLinesAfterLine(ls[0], Join(ls[1..], "\n"));
      SplitLinesJoin(ls[1..]);
    }
  }

  function LowerChar(c: char): (r: char)
    ensures 'A' <= c <= 'Z' ==> r != c && 'a' <= r <= 'z'
    ensures !('A' <= c <= 'Z') ==> r == c
  {
    if 'A' <= c <= 'Z' then (c as int - 'A' as int + 'a' as int) as char else c
  }

  /** `s.lower()`, on ASCII letters: same length, no upper-case ASCII letter left. */
  function Lower(s: string): (r: string)
    ensures |r| == |s|
    ensures forall i :: 0 <= i < |s| ==> r[i] == LowerChar(s[i])
  {
    seq(|s|, i requires 0 <= i < |s| => LowerChar(s[i]))
  }

  /** Lower-casing twice is lower-casing once. */
  lemma LowerIdempotent(s: string)
    ensures Lower(Lower(s)) == Lower(s)
  {
  }

  predicate StartsWith(s: string, prefix: string) {
    |prefix| <= |s| && s[..|prefix|] == prefix
  }

  predicate EndsWith(s: string, suffix: string) {
    |suffix| <= |s| && s[|s| - |suffix|..] == suffix
  }

  /** `sub in s` for strings. */
  predicate Contains(s: string, sub: string) {
    exists i :: 0 <= i <= |s| && SliceAt(s, i, sub)
  }

  function DigitChar(d: nat): (c: char)
    requires d < 10
    ensures '0' <= c <= '9'
  {
    ('0' as int + d) as char
  }

  /** `str(n)` for a non-negative integer: decimal digits without leading zeros. */
  function NatToString(n: nat): (r: string)
    ensures r != []
    ensures forall i :: 0 <= i < |r| ==> '0' <= r[i] <= '9'
    ensures |r| > 1 ==> r[0] != '0'
  {
    if n < 10 then [DigitChar(n)] else NatToString(n / 10) + [DigitChar(n % 10)]
  }

  /** `str(i)` for any integer. */
  function IntToString(i: int): (r: string)
    ensures r != []
    ensures i < 0 <==> r[0] == '-'
  {
    if i < 0 then "-" + NatToString(-i) else NatToString(i)
  }

  /** `str(i)` is a minus sign and decimal digits. */
  lemma IntToStringSigned(i: int)
    ensures forall k :: 0 <= k < |IntToString(i)| ==> IntToString(i)[k] == '-' || '0' <= IntToString(i)[k] <= '9'
  {
    if i < 0 {
      var t := IntToString(i);
      assert t == "-" + NatToString(-i);
      assert forall k :: 1 <= k < |t| ==> t[k] == NatToString(-i)[k - 1];
    }
  }

  /** Decimal rendering is injective: distinct numbers have distinct renderings. */
  lemma {:induction false} NatToStringInjective(a: nat, b: nat)
    requires NatToString(a) == NatToString(b)
    ensures a == b
  {
    if a >= 10 && b >= 10 {
      var ra, rb := NatToString(a), NatToString(b);
      assert ra[..|ra| - 1] == NatToString(a / 10);
      assert rb[..|rb| - 1] == NatToString(b / 10);
      NatToStringInjective(a / 10, b / 10);
    }
  }

  predicate AllDigits(s: string) {
    forall i :: 0 <= i < |s| ==> '0' <= s[i] <= '9'
  }

  /** The value of a string of decimal digits. */
  function DigitsValue(s: string): nat
    requires AllDigits(s)
    decreases |s|
  {
    if s == [] then 0 else DigitsValue(s[..|s| - 1]) * 10 + (s[|s| - 1] as int - '0' as int)
  }

  /** `int(s)` on decimal text: an optional sign, then one or more ASCII digits. */
  function ParseInt(s: string): (r: Option<int>)
    ensures r.Some? ==> s != [] && (s[0] == '-' || s[0] == '+' || '0' <= s[0] <= '9')
    ensures AllDigits(s) && s != [] ==> r == Some(DigitsValue(s))
  {
    if s != [] && (s[0] == '-' || s[0] == '+') then
      var digits := s[1..];
      if digits != [] && AllDigits(digits) then Some(if s[0] == '-' then 0 - DigitsValue(digits) as int else DigitsValue(digits) as int)
      else None
    else if s != [] && AllDigits(s) then Some(DigitsValue(s))
    else None
  }

  lemma {:induction false} DigitsOfNat(n: nat)
    ensures AllDigits(NatToString(n)) && DigitsValue(NatToString(n)) == n
  {
    if n >= 10 {
      DigitsOfNat(n / 10);
      var r := NatToString(n);
      assert r[..|r| - 1] == NatToString(n / 10);
    }
  }

  /** Reading back the decimal rendering of an integer gives the integer. */
  lemma ParseIntRoundTrip(i: int)
    ensures ParseInt(IntToString(i)) == Some(i)
  {
    if i < 0 {
      DigitsOfNat(-i);
      assert IntToString(i)[1..] == NatToString(-i);
    } else {
      DigitsOfNat(i);
    }
  }

  /** Consecutive slices of at most `maxChars` characters. */
  function Slices(s: string, maxChars: nat): (r: seq<string>)
    requires maxChars >= 1
    ensures Concat(r) == s
    ensures forall i :: 0 <= i < |r| ==> 0 < |r[i]| <= maxChars
    ensures s != [] ==> r != [] && |r[|r| - 1]| <= |s| && r[|r| - 1] == s[|s| - |r[|r| - 1]|..]
    decreases |s|
  {
    if s == [] then []
    else if |s| <= maxChars then [s]
    else
      assert s == s[..maxChars] + s[maxChars..];
      var rest := Slices(s[maxChars..], maxChars);
      assert s[maxChars..][|s[maxChars..]| - |rest[|rest| - 1]|..] == s[|s| - |rest[|rest| - 1]|..];
      [s[..maxChars]] + rest
  }

  /** One slice off the front of `line[idx..]`. */
  lemma SlicesFrom(line: string, idx: nat, end: nat, maxChars: nat)
    requires maxChars >= 1 && idx < |line|
    requires end == if idx + maxChars < |line| then idx + maxChars else |line|
    ensures Slices(line[idx..], maxChars) == [line[idx..end]] + Slices(line[end..], maxChars)
  {
    var s := line[idx..];
    if end == |line| {
      assert s == line[idx..end];
      SlicesShort(s, maxChars);
      SlicesEmpty(line[end..], maxChars);
    } else {
      assert s[..maxChars] == line[idx..end];
      assert s[maxChars..] == line[end..];
      SlicesLong(s, maxChars);
    }
  }

  lemma SlicesShort(s: string, maxChars: nat)
    requires 0 < |s| <= maxChars
    ensures Slices(s, maxChars) == [s]
  {
  }

  lemma SlicesEmpty(s: string, maxChars: nat)
    requires s == [] && maxChars >= 1
    ensures Slices(s, maxChars) == []
  {
  }

  lemma SlicesLong(s: string, maxChars: nat)
    requires 1 <= maxChars < |s|
    ensures Slices(s, maxChars) == [s[..maxChars]] + Slices(s[maxChars..], maxChars)
  {
  }


  /** Python's `a <= b` on strings: lexicographic by code point. */
  predicate StrLe(a: string, b: string)
    decreases |a|
  {
    a == [] || (b != [] && (a[0] < b[0] || (a[0] == b[0] && StrLe(a[1..], b[1..]))))
  }

  lemma {:induction false} StrLeTotal(a: string, b: string)
    ensures StrLe(a, b) || StrLe(b, a)
    decreases |a|
  {
    if a != [] && b != [] && a[0] == b[0] {
      StrLeTotal(a[1..], b[1..]);
    }
  }

  lemma {:induction false} StrLeTrans(a: string, b: string, c: string)
    requires StrLe(a, b) && StrLe(b, c)
    ensures StrLe(a, c)
    decreases |a|
  {
    if a != [] && b != [] && c != [] && a[0] == b[0] && b[0] == c[0] {
      StrLeTrans(a[1..], b[1..], c[1..]);
    }
  }

  lemma {:induction false} StrLeAntisym(a: string, b: string)
    requires StrLe(a, b) && StrLe(b, a)
    ensures a == b
    decreases |a|
  {
    if a != [] {
      StrLeAntisym(a[1..], b[1..]);
      assert a == [a[0]] + a[1..] && b == [b[0]] + b[1..];
    }
  }
}

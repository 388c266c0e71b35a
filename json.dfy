/** Python values as they appear in decoded JSON events and in parsed TOML
    configuration. A `dict` is an association list in insertion order (Python
    dicts keep insertion order and their keys are distinct). */
module Json {
  import opened Wrappers
  import Text

  datatype Value =
    | Null
    | Bool(b: bool)
    | Int(i: int)
    /** A float, carried as the text of its Python `repr`. */
    | Float(repr: string)
    | Str(s: string)
    /** A `pathlib.Path`, carried as its string form. */
    | PathV(path: string)
    | Arr(items: seq<Value>)
    | Obj(fields: seq<(string, Value)>)
    /** Any other Python object (a datetime, a tuple, ...). */
    | Other

  type Fields = seq<(string, Value)>

  function Keys(f: Fields): (ks: seq<string>)
    ensures |ks| == |f|
    ensures forall i :: 0 <= i < |f| ==> ks[i] == f[i].0
  {
    if f == [] then [] else [f[0].0] + Keys(f[1..])
  }

  predicate HasKey(f: Fields, k: string) {
    k in Keys(f)
  }

  /** A well-formed dict: no key twice. */
  predicate DistinctKeys(f: Fields) {
    f == [] || (!HasKey(f[1..], f[0].0) && DistinctKeys(f[1..]))
  }

  /** `d.get(k)`: the value stored under `k`, if any. */
  function Lookup(f: Fields, k: string): (r: Option<Value>)
    ensures r.None? <==> !HasKey(f, k)
  {
    if f == [] then None
    else if f[0].0 == k then Some(f[0].1)
    else Lookup(f[1..], k)
  }

  /** `d[k] = v`: an existing key keeps its position, a new key goes last. */
  function Put(f: Fields, k: string, v: Value): (r: Fields)
    ensures Lookup(r, k) == Some(v)
    ensures forall k' :: k' != k ==> Lookup(r, k') == Lookup(f, k')
    ensures HasKey(f, k) ==> Keys(r) == Keys(f)
    ensures !HasKey(f, k) ==> Keys(r) == Keys(f) + [k]
  {
    if f == [] then [(k, v)]
    else if f[0].0 == k then
      var r := [(k, v)] + f[1..];
      assert f == [f[0]] + f[1..];
      ConsFacts(f[0], f[1..], k);
      ConsFacts((k, v), f[1..], k);
      r
    else
      var t := Put(f[1..], k, v);
      var r := [f[0]] + t;
      assert f == [f[0]] + f[1..];
      ConsFacts(f[0], f[1..], k);
      ConsFacts(f[0], t, k);
      assert !HasKey(f, k) ==> [f[0].0] + (Keys(f[1..]) + [k]) == ([f[0].0] + Keys(f[1..])) + [k];
      r
  }

  /** The keys and lookups of a dict with one entry in front. */
  lemma ConsFacts(p: (string, Value), t: Fields, k: string)
    ensures Keys([p] + t) == [p.0] + Keys(t)
    ensures HasKey([p] + t, k) <==> p.0 == k || HasKey(t, k)
    ensures forall k' :: Lookup([p] + t, k') == if p.0 == k' then Some(p.1) else Lookup(t, k')
  {
    assert ([p] + t)[1..] == t;
  }

  /** Storing a key keeps a dict well formed. */
  lemma {:induction false} PutDistinct(f: Fields, k: string, v: Value)
    requires DistinctKeys(f)
    ensures DistinctKeys(Put(f, k, v))
  {
    var r := Put(f, k, v);
    if f != [] && f[0].0 != k {
      var t := Put(f[1..], k, v);
      PutDistinct(f[1..], k, v);
      assert r == [f[0]] + t && r[1..] == t;
      assert Lookup(t, f[0].0) == Lookup(f[1..], f[0].0);
    } else if f != [] {
      assert Keys(r[1..]) == Keys(f[1..]);
    }
  }

  /** `d.pop(k, None)` / `del d[k]` on a well-formed dict: `k` is gone, the other keys keep their values and order. */
  function Remove(f: Fields, k: string): (r: Fields)
    requires DistinctKeys(f)
    ensures !HasKey(r, k)
    ensures forall k' :: k' != k ==> Lookup(r, k') == Lookup(f, k')
    ensures DistinctKeys(r)
    ensures |r| <= |f|
  {
    if f == [] then []
    else if f[0].0 == k then
      assert !HasKey(f[1..], k);
      f[1..]
    else
      var t := Remove(f[1..], k);
      assert Lookup(t, f[0].0) == None;
      var r := [f[0]] + t;
      assert r[1..] == t;
      r
  }

  /** A value as Python holds it: every dict, however deeply nested, has distinct keys. */
  predicate WellFormed(v: Value)
    decreases v
  {
    match v
    case Obj(f) => DistinctKeys(f) && forall i :: 0 <= i < |f| ==> WellFormed(f[i].1)
    case Arr(items) => forall i :: 0 <= i < |items| ==> WellFormed(items[i])
    case _ => true
  }

  /** Every value stored in a dict is well formed. */
  predicate ValuesWellFormed(f: Fields) {
    forall i :: 0 <= i < |f| ==> WellFormed(f[i].1)
  }

  /** The value found under a key is one of the dict's values. */
  lemma {:induction false} LookupFound(f: Fields, k: string)
    requires Lookup(f, k).Some?
    ensures exists i :: 0 <= i < |f| && f[i] == (k, Lookup(f, k).value)
    decreases |f|
  {
    if f[0].0 != k {
      LookupFound(f[1..], k);
      var i :| 0 <= i < |f[1..]| && f[1..][i] == (k, Lookup(f, k).value);
      assert f[i + 1] == f[1..][i];
    }
  }

  /** Storing a well-formed value keeps a dict's values well formed. */
  lemma {:induction false} PutWellFormed(f: Fields, k: string, v: Value)
    requires ValuesWellFormed(f) && WellFormed(v)
    ensures ValuesWellFormed(Put(f, k, v))
    decreases |f|
  {
    if f != [] && f[0].0 != k {
      PutWellFormed(f[1..], k, v);
      var r := Put(f, k, v);
      assert r == [f[0]] + Put(f[1..], k, v);
      forall i | 0 <= i < |r| ensures WellFormed(r[i].1) {
        if i > 0 { assert r[i] == Put(f[1..], k, v)[i - 1]; }
      }
    } else if f != [] {
      var r := Put(f, k, v);
      forall i | 0 <= i < |r| ensures WellFormed(r[i].1) {
        if i > 0 { assert r[i] == f[i]; }
      }
    }
  }

  /** Removing a key keeps a dict's values well formed. */
  lemma {:induction false} RemoveWellFormed(f: Fields, k: string)
    requires DistinctKeys(f) && ValuesWellFormed(f)
    ensures ValuesWellFormed(Remove(f, k))
    decreases |f|
  {
    if f != [] && f[0].0 != k {
      RemoveWellFormed(f[1..], k);
      var r := Remove(f, k);
      assert r == [f[0]] + Remove(f[1..], k);
      forall i | 0 <= i < |r| ensures WellFormed(r[i].1) {
        if i > 0 { assert r[i] == Remove(f[1..], k)[i - 1]; }
      }
    } else if f != [] {
      assert Remove(f, k) == f[1..];
      forall i | 0 <= i < |f[1..]| ensures WellFormed(f[1..][i].1) {
        assert f[1..][i] == f[i + 1];
      }
    }
  }

  /** The table found under a key of a well-formed dict is well formed. */
  lemma LookupWellFormed(f: Fields, k: string)
    requires ValuesWellFormed(f) && Lookup(f, k).Some?
    ensures WellFormed(Lookup(f, k).value)
  {
    LookupFound(f, k);
  }

  /** `d.get(k)` when `d` may not be a dict at all. */
  function Get(v: Value, k: string): (r: Option<Value>)
    ensures !v.Obj? ==> r.None?
  {
    if v.Obj? then Lookup(v.fields, k) else None
  }

  /** Python truthiness (`bool(v)`). */
  predicate Truthy(v: Value) {
    match v
    case Null => false
    case Bool(b) => b
    case Int(i) => i != 0
    case Float(r) => r != "0.0" && r != "-0.0"
    case Str(s) => s != []
    case PathV(_) => true
    case Arr(items) => items != []
    case Obj(fields) => fields != []
    case Other => true
  }

  /** The string held by `v` when it is a `str`. */
  function AsStr(v: Option<Value>): (r: Option<string>)
    ensures r.Some? <==> v.Some? && v.value.Str?
  {
    if v.Some? && v.value.Str? then Some(v.value.s) else None
  }
  /** `d.get(k)`: a missing key reads as `None`. */
  function GetV(f: Fields, k: string): (r: Value)
    ensures Lookup(f, k).None? ==> r == Null
    ensures Lookup(f, k).Some? ==> r == Lookup(f, k).value
  {
    Lookup(f, k).GetOr(Null)
  }

  /** A non-empty `str`: `isinstance(v, str) and v`. */
  predicate NonEmptyStr(v: Value) {
    v.Str? && v.s != []
  }

  /** Python's `a or b` on values. */
  function Or(a: Value, b: Value): (r: Value)
    ensures Truthy(r) <==> Truthy(a) || Truthy(b)
  {
    if Truthy(a) then a else b
  }

  /** `str(v)` for the scalar values; a list, dict or other object is shown
      by Python through its `repr`, which the model does not spell out. */
  function ToStr(v: Value): (r: string)
    ensures v.Str? ==> r == v.s
    ensures v.Int? ==> r == Text.IntToString(v.i)
  {
    match v
    case Null => "None"
    case Bool(b) => if b then "True" else "False"
    case Int(i) => Text.IntToString(i)
    case Float(repr) => repr
    case Str(s) => s
    case PathV(p) => p
    case _ => "<object>"
  }
}

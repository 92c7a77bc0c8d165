/**
 * The TXT exporter (`services/export_service_txt.py`): the searches that
 * find the five key specifications of a test sequence (part name, part
 * number, free length, test mode, safety limit) in its parameters, and
 * the file name and lines of the pipe-separated export. Writing the file
 * is I/O: whether it succeeds is a given outcome.
 */
module ExportTxt {
  import opened Wrappers
  import opened PyStr
  import opened Values
  import DataModels

  // ------------------------------------------------- value tests

  /** `value in ('None', 'null', None, '')`. */
  predicate Blank(v: Value) {
    v == Null || v == Str("None") || v == Str("null") || v == Str("")
  }

  /** `value and value not in ('None', 'null', None, '')`. */
  predicate Usable(v: Value) {
    Truthy(v) && !Blank(v)
  }

  /** `str(value).strip()`. */
  function Text(v: Value): (r: string)
    ensures Trimmed(r)
  {
    Strip(ToText(v))
  }

  // ------------------------------------------------- nested lookup

  /**
   * The value reached by following `path` from `current`; `None` as soon
   * as a key is missing or something other than a dictionary is met.
   */
  function Walk(current: Value, path: seq<string>): Option<Value>
    decreases |path|
  {
    if |path| == 0 then Some(current)
    else if !current.Obj? then None
    else match Get(current.entries, path[0])
      case None => None
      case Some(v) => Walk(v, path[1..])
  }

  /** `_extract_nested_value(data, path, default)`. */
  function NestedValue(data: Dict<Value>, path: seq<string>, default: string): string {
    match Walk(Obj(data), path)
    case None => default
    case Some(v) => if Blank(v) then default else Text(v)
  }

  /** The loop of `_extract_nested_value`, one key of the path at a time. */
  method ExtractNestedValue(data: Dict<Value>, path: seq<string>, default: string) returns (r: string)
    ensures r == NestedValue(data, path, default)
  {
    var current := Obj(data);
    var k := 0;
    while k < |path|
      invariant 0 <= k <= |path|
      invariant Walk(Obj(data), path) == Walk(current, path[k..])
    {
      assert path[k..][1..] == path[k + 1..];
      if !current.Obj? {
        return default;
      }
      GetNone(current.entries, path[k]);
      if !HasKey(current.entries, path[k]) {
        return default;
      }
      current := Get(current.entries, path[k]).value;
      k := k + 1;
    }
    if Blank(current) {
      return default;
    }
    r := Strip(ToText(current));
  }

  /**
   * The default when a key of the path is missing, a non-dictionary is
   * reached or the leaf is blank; otherwise the stripped text of the leaf.
   */
  lemma {:induction false} NestedValueCases(data: Dict<Value>, path: seq<string>, default: string)
    ensures forall v :: Walk(Obj(data), path) == Some(v) && !Blank(v) ==> NestedValue(data, path, default) == Text(v)
    ensures (Walk(Obj(data), path).None? || Blank(Walk(Obj(data), path).value)) ==> NestedValue(data, path, default) == default
    ensures NestedValue(data, path, default) == default || Trimmed(NestedValue(data, path, default))
  {
  }

  /** Following `p + q` is following `p`, then `q` from where `p` ends. */
  lemma {:induction false} WalkAppend(current: Value, p: seq<string>, q: seq<string>)
    ensures Walk(current, p + q) == match Walk(current, p) case None => None case Some(v) => Walk(v, q)
    decreases |p|
  {
    if |p| > 0 && current.Obj? && Get(current.entries, p[0]).Some? {
      assert (p + q)[1..] == p[1..] + q;
      WalkAppend(Get(current.entries, p[0]).value, p[1..], q);
    } else if |p| > 0 {
      assert (p + q)[0] == p[0];
    } else {
      assert p + q == q;
    }
  }

  /** A one-key path reads the top-level entry, and a path two keys long reads one level down. */
  lemma WalkShortPaths(data: Dict<Value>, a: string, b: string)
    ensures Walk(Obj(data), [a]) == Get(data, a)
    ensures Walk(Obj(data), [a, b]) ==
      match Get(data, a) case None => None case Some(v) => if v.Obj? then Get(v.entries, b) else None
  {
    assert [a, b][1..] == [b];
    assert [a][1..] == [] && [b][1..] == [];
    match Get(data, a)
    case None =>
    case Some(v) =>
      assert Walk(Obj(data), [a, b]) == Walk(v, [b]);
      if v.Obj? {
        match Get(v.entries, b)
        case None =>
        case Some(w) =>
          assert Walk(v, [b]) == Walk(w, []);
      }
  }

  // ------------------------------------------------- first parameter of several keys

  /** `_extract_parameter_value(params, *keys, default_value=default)`. */
  function ParameterValue(params: Dict<Value>, keys: seq<string>, default: string): string
    decreases |keys|
  {
    if |keys| == 0 then default
    else match Get(params, keys[0])
      case Some(v) => if !Blank(v) then Text(v) else ParameterValue(params, keys[1..], default)
      case None => ParameterValue(params, keys[1..], default)
  }

  /** The loop of `_extract_parameter_value`. */
  method ExtractParameterValue(params: Dict<Value>, keys: seq<string>, default: string) returns (r: string)
    ensures r == ParameterValue(params, keys, default)
  {
    var k := 0;
    while k < |keys|
      invariant 0 <= k <= |keys|
      invariant ParameterValue(params, keys, default) == ParameterValue(params, keys[k..], default)
    {
      assert keys[k..][1..] == keys[k + 1..];
      var key := keys[k];
      GetNone(params, key);
      if HasKey(params, key) && Get(params, key).value != Null {
        var value := Get(params, key).value;
        if !Blank(value) {
          return Strip(ToText(value));
        }
      }
      k := k + 1;
    }
    r := default;
  }

  /**
   * The first key, in the order given, present with a value that is not
   * blank decides the result; when there is none the result is the default.
   */
  lemma {:induction false} ParameterValueFirst(params: Dict<Value>, keys: seq<string>, default: string, i: nat)
    requires i < |keys| && Get(params, keys[i]).Some? && !Blank(Get(params, keys[i]).value)
    requires forall j :: 0 <= j < i ==> Get(params, keys[j]).None? || Blank(Get(params, keys[j]).value)
    ensures ParameterValue(params, keys, default) == Text(Get(params, keys[i]).value)
    decreases i
  {
    if i > 0 {
      ParameterValueFirst(params, keys[1..], default, i - 1);
    }
  }

  lemma {:induction false} ParameterValueNone(params: Dict<Value>, keys: seq<string>, default: string)
    requires forall j :: 0 <= j < |keys| ==> Get(params, keys[j]).None? || Blank(Get(params, keys[j]).value)
    ensures ParameterValue(params, keys, default) == default
    decreases |keys|
  {
    if |keys| > 0 {
      ParameterValueNone(params, keys[1..], default);
    }
  }

  // ------------------------------------------------- flattening

  /** The key an entry `k` gets under `parent`. */
  function Under(parent: string, k: string): string {
    if parent == "" then k else parent + "_" + k
  }

  /** The prefix every key under `parent` starts with. */
  function PrefixOf(parent: string): string {
    if parent == "" then "" else parent + "_"
  }

  /** `_flatten_dict(d, parent)`: `dict(items)` of the collected items. */
  function Flatten(d: Dict<Value>, parent: string): Dict<Value>
    decreases Obj(d), 1
  {
    Update([], FlatItems(d, parent, 0))
  }

  /**
   * The `items` list `_flatten_dict` collects from the entries `d[i..]`,
   * each nested dictionary flattened in its place.
   */
  function FlatItems(d: Dict<Value>, parent: string, i: nat): Dict<Value>
    requires i <= |d|
    decreases Obj(d), 0, |d| - i
  {
    if i == |d| then []
    else
      var key := Under(parent, d[i].0);
      var v := d[i].1;
      (if v.Obj? then Flatten(v.entries, key) else [(key, v)]) + FlatItems(d, parent, i + 1)
  }

  /** No dictionary values, and every key starts with `pre`. */
  predicate Leaves(d: Dict<Value>, pre: string) {
    forall i :: 0 <= i < |d| ==> !d[i].1.Obj? && StartsWith(d[i].0, pre)
  }

  lemma SetLeaves(d: Dict<Value>, k: string, v: Value, pre: string)
    requires Leaves(d, pre) && !v.Obj? && StartsWith(k, pre)
    ensures Leaves(Set(d, k, v), pre)
  {
  }

  lemma {:induction false} UpdateLeaves(d: Dict<Value>, e: Dict<Value>, pre: string)
    requires Leaves(d, pre) && Leaves(e, pre)
    ensures Leaves(Update(d, e), pre)
    decreases |e|
  {
    if |e| > 0 {
      SetLeaves(d, e[0].0, e[0].1, pre);
      UpdateLeaves(Set(d, e[0].0, e[0].1), e[1..], pre);
    }
  }

  lemma StartsWithTrans(s: string, a: string, b: string)
    requires StartsWith(s, a) && StartsWith(a, b)
    ensures StartsWith(s, b)
  {
    assert s[..|b|] == s[..|a|][..|b|];
  }

  /**
   * The flattened dictionary holds no dictionary values, and below a
   * parent every key starts with the parent's name and `_`: keys are
   * paths joined by `_`.
   */
  lemma {:induction false} FlattenLeaves(d: Dict<Value>, parent: string)
    ensures Leaves(Flatten(d, parent), PrefixOf(parent))
    decreases Obj(d), 1
  {
    FlatItemsLeaves(d, parent, 0);
    UpdateLeaves([], FlatItems(d, parent, 0), PrefixOf(parent));
  }

  lemma {:induction false} FlatItemsLeaves(d: Dict<Value>, parent: string, i: nat)
    requires i <= |d|
    ensures Leaves(FlatItems(d, parent, i), PrefixOf(parent))
    decreases Obj(d), 0, |d| - i
  {
    if i < |d| {
      var key := Under(parent, d[i].0);
      var pre := PrefixOf(parent);
      UnderPrefix(parent, d[i].0);
      var v := d[i].1;
      var head := if v.Obj? then Flatten(v.entries, key) else [(key, v)];
      if v.Obj? {
        FlattenLeaves(v.entries, key);
        NestedPrefix(key, pre);
        LeavesWeaken(head, PrefixOf(key), pre);
      }
      FlatItemsLeaves(d, parent, i + 1);
      LeavesAppend(head, FlatItems(d, parent, i + 1), pre);
    }
  }

  /** A key under `parent` starts with the parent's prefix. */
  lemma UnderPrefix(parent: string, k: string)
    ensures StartsWith(Under(parent, k), PrefixOf(parent))
  {
    if parent != "" {
      assert Under(parent, k)[..|PrefixOf(parent)|] == PrefixOf(parent);
    }
  }

  /** The prefix below a key that starts with `pre` starts with `pre` too. */
  lemma NestedPrefix(key: string, pre: string)
    requires StartsWith(key, pre)
    ensures StartsWith(PrefixOf(key), pre)
  {
    if key != "" {
      assert PrefixOf(key)[..|key|] == key;
      StartsWithTrans(PrefixOf(key), key, pre);
    }
  }

  lemma LeavesWeaken(d: Dict<Value>, pre: string, pre': string)
    requires Leaves(d, pre) && StartsWith(pre, pre')
    ensures Leaves(d, pre')
  {
    forall j | 0 <= j < |d| ensures StartsWith(d[j].0, pre') {
      StartsWithTrans(d[j].0, pre, pre');
    }
  }

  lemma LeavesAppend(a: Dict<Value>, b: Dict<Value>, pre: string)
    requires Leaves(a, pre) && Leaves(b, pre)
    ensures Leaves(a + b, pre)
  {
    forall j | 0 <= j < |a + b| ensures !(a + b)[j].1.Obj? && StartsWith((a + b)[j].0, pre) {
      if j >= |a| {
        assert (a + b)[j] == b[j - |a|];
      }
    }
  }

  /** No dictionary among the values. */
  predicate NoNested(d: Dict<Value>) {
    forall i :: 0 <= i < |d| ==> !d[i].1.Obj?
  }

  lemma {:induction false} FlatItemsOfFlat(d: Dict<Value>, i: nat)
    requires NoNested(d) && i <= |d|
    ensures FlatItems(d, "", i) == d[i..]
    decreases |d| - i
  {
    if i < |d| {
      FlatItemsOfFlat(d, i + 1);
      assert d[i..] == [d[i]] + d[i + 1..];
    }
  }

  lemma HasKeySnoc(acc: Dict<Value>, x: (string, Value), k: string)
    ensures HasKey(acc + [x], k) <==> HasKey(acc, k) || x.0 == k
  {
    var r := acc + [x];
    if HasKey(acc, k) {
      var j :| 0 <= j < |acc| && acc[j].0 == k;
      assert r[j] == acc[j];
    }
    if x.0 == k {
      assert r[|acc|] == x;
    }
    if HasKey(r, k) && x.0 != k {
      var j :| 0 <= j < |r| && r[j].0 == k;
      assert r[j] == acc[j];
    }
  }

  /** Setting keys not yet present, one after the other, appends them. */
  lemma {:induction false} UpdateFresh(acc: Dict<Value>, e: Dict<Value>)
    requires DistinctKeys(e) && forall i :: 0 <= i < |e| ==> !HasKey(acc, e[i].0)
    ensures Update(acc, e) == acc + e
    decreases |e|
  {
    if |e| > 0 {
      assert !HasKey(acc, e[0].0);
      SetProperties(acc, e[0].0, e[0].1);
      var acc' := acc + [e[0]];
      assert Set(acc, e[0].0, e[0].1) == acc';
      var t := e[1..];
      forall i | 0 <= i < |t| ensures !HasKey(acc', t[i].0) {
        assert t[i] == e[i + 1];
        assert !HasKey(acc, e[i + 1].0);
        HasKeySnoc(acc, e[0], t[i].0);
      }
      assert DistinctKeys(t) by {
        forall i, j | 0 <= i < j < |t| ensures t[i].0 != t[j].0 {
          assert t[i] == e[i + 1] && t[j] == e[j + 1];
        }
      }
      UpdateFresh(acc', t);
      Regroup(acc, e);
    }
  }

  lemma Regroup<T>(a: seq<T>, e: seq<T>)
    requires |e| > 0
    ensures (a + [e[0]]) + e[1..] == a + e
  {
    assert e == [e[0]] + e[1..];
  }

  /** A dictionary without nested dictionaries flattens to itself. */
  lemma FlattenOfFlat(d: Dict<Value>)
    requires NoNested(d) && DistinctKeys(d)
    ensures Flatten(d, "") == d
  {
    FlatItemsOfFlat(d, 0);
    assert d[0..] == d;
    UpdateFresh([], d);
  }
}

/**
 * JSON values as the gateway sees them: values produced by the remote service's parsed bodies,
 * the query maps the tools hand to the HTTP client, and the envelopes they return.
 * Objects are sequences of key/value pairs so that Python's dict insertion order is kept.
 * The module also models the handful of Python behaviours the tools rely on: truthiness of
 * optional parameters, `dict.get` with a default, and the exceptions Python raises when a
 * value is not of the expected type.
 */
module Json {
  import opened Wrappers

  datatype Json =
    | JNull
    | JBool(b: bool)
    | JInt(i: int)
    | JStr(s: string)
    | JList(items: seq<Json>)
    | JObj(fields: Fields)

  /** The key/value pairs of a JSON object (or of a Python dict), in insertion order. */
  type Fields = seq<(string, Json)>

  /** The keys of `fs`, in order. */
  function Keys(fs: Fields): (ks: seq<string>)
    ensures |ks| == |fs|
    ensures forall i :: 0 <= i < |fs| ==> ks[i] == fs[i].0
  {
    if fs == [] then [] else [fs[0].0] + Keys(fs[1..])
  }

  /**
   * Lookup of `k`, as in the Python dict built from `fs`: when a key occurs twice
   * (as Python's json module allows in a body), the later pair wins.
   */
  function Get(fs: Fields, k: string): (r: Option<Json>)
    ensures r.None? <==> forall i :: 0 <= i < |fs| ==> fs[i].0 != k
    ensures r.Some? ==> exists i :: 0 <= i < |fs| && fs[i] == (k, r.value)
  {
    if fs == [] then None
    else match Get(fs[1..], k)
      case Some(v) =>
        assert forall i :: 0 <= i < |fs[1..]| ==> fs[1..][i] == fs[i + 1];
        Some(v)
      case None => if fs[0].0 == k then Some(fs[0].1) else None
  }

  /** Lookup in a concatenation: the later part wins. */
  lemma {:induction false} GetAppend(a: Fields, b: Fields, k: string)
    ensures Get(a + b, k) == if Get(b, k).Some? then Get(b, k) else Get(a, k)
  {
    if a == [] {
      assert a + b == b;
    } else {
      assert (a + b)[1..] == a[1..] + b;
      GetAppend(a[1..], b, k);
    }
  }

  /** `d.get(k, default)` on a dict `d` given by its pairs. */
  function GetOr(fs: Fields, k: string, default: Json): (r: Json)
    ensures (forall i :: 0 <= i < |fs| ==> fs[i].0 != k) ==> r == default
    ensures (exists i :: 0 <= i < |fs| && fs[i].0 == k) ==> Get(fs, k) == Some(r)
  {
    match Get(fs, k)
    case Some(v) => v
    case None => default
  }

  /** Python's name for the type a JSON value is parsed into. */
  function TypeName(j: Json): string
  {
    match j
    case JNull => "NoneType"
    case JBool(_) => "bool"
    case JInt(_) => "int"
    case JStr(_) => "str"
    case JList(_) => "list"
    case JObj(_) => "dict"
  }

  /**
   * The Python exceptions the tools can raise while reshaping a parsed body. A `KeyError`
   * carries the `repr` of the missing key, which is what `str(e)` shows.
   */
  datatype PyError =
    | AttributeError(typeName: string, attr: string)
    | TypeError(message: string)
    | KeyError(keyRepr: string)
    | IndexError(typeName: string)
  {
    /** `str(e)`. */
    function Message(): string
    {
      match this
      case AttributeError(t, a) => "'" + t + "' object has no attribute '" + a + "'"
      case TypeError(m) => m
      case KeyError(k) => k
      case IndexError(t) => t + " index out of range"
    }
  }

  /** A Python expression's outcome: a value, or the exception it raised. */
  datatype Py<+T> = Val(value: T) | Raise(error: PyError)

  /** `data.get(k, default)`: only a dict has `get`. */
  function PyGet(data: Json, k: string, default: Json): (r: Py<Json>)
    ensures r.Raise? <==> !data.JObj?
    ensures r.Raise? ==> r.error == AttributeError(TypeName(data), "get")
    ensures data.JObj? && (forall i :: 0 <= i < |data.fields| ==> data.fields[i].0 != k) ==> r == Val(default)
    ensures data.JObj? && Get(data.fields, k).Some? ==> r == Val(Get(data.fields, k).value)
  {
    match data
    case JObj(fs) => Val(GetOr(fs, k, default))
    case _ => Raise(AttributeError(TypeName(data), "get"))
  }

  /** Truthiness of an optional string parameter: not None and not empty. */
  predicate TruthyStr(o: Option<string>)
  {
    o.Some? && o.value != ""
  }

  /** Truthiness of an optional integer parameter: not None and not zero. */
  predicate TruthyInt(o: Option<int>)
  {
    o.Some? && o.value != 0
  }

  /** An optional string parameter as a dict value: None becomes null. */
  function StrOrNull(o: Option<string>): Json
  {
    match o
    case Some(s) => JStr(s)
    case None => JNull
  }

  /** An optional integer parameter as a dict value: None becomes null. */
  function IntOrNull(o: Option<int>): Json
  {
    match o
    case Some(n) => JInt(n)
    case None => JNull
  }

  /** `{k: v for k, v in fs if v is not None}`. */
  function DropNulls(fs: Fields): (r: Fields)
    ensures |r| <= |fs|
    ensures forall i :: 0 <= i < |r| ==> r[i].1 != JNull
  {
    if fs == [] then []
    else if fs[0].1 == JNull then DropNulls(fs[1..])
    else [fs[0]] + DropNulls(fs[1..])
  }

  /** One entry at a time: the unfolding used for dicts written out in full. */
  lemma DropNullsCons(e: (string, Json), rest: Fields)
    ensures DropNulls([e] + rest) == (if e.1 == JNull then [] else [e]) + DropNulls(rest)
  {
    assert ([e] + rest)[1..] == rest;
  }

  lemma {:induction false} DropNullsAppend(a: Fields, b: Fields)
    ensures DropNulls(a + b) == DropNulls(a) + DropNulls(b)
  {
    if a == [] {
      assert a + b == b;
    } else {
      assert (a + b)[1..] == a[1..] + b;
      DropNullsAppend(a[1..], b);
    }
  }

  /** An entry is kept exactly when it is an entry of the input whose value is not None. */
  lemma {:induction false} DropNullsMembers(fs: Fields, x: (string, Json))
    ensures x in DropNulls(fs) <==> x in fs && x.1 != JNull
  {
    if fs != [] {
      DropNullsMembers(fs[1..], x);
      assert fs == [fs[0]] + fs[1..];
    }
  }

  /** `a` is `b` with some elements left out, the rest in the same order. */
  predicate IsSubsequence<T(==)>(a: seq<T>, b: seq<T>)
    decreases |b|
  {
    a == [] || (b != [] && ((a[0] == b[0] && IsSubsequence(a[1..], b[1..])) || IsSubsequence(a, b[1..])))
  }

  /** The kept entries stay in their insertion order. */
  lemma {:induction false} DropNullsOrdered(fs: Fields)
    ensures IsSubsequence(DropNulls(fs), fs)
  {
    if fs != [] {
      DropNullsOrdered(fs[1..]);
      var r := DropNulls(fs[1..]);
      if fs[0].1 != JNull {
        assert ([fs[0]] + r)[1..] == r;
      }
    }
  }

  /** Dropping entries from a dict drops the same keys from its key list. */
  lemma {:induction false} KeysSubsequence(a: Fields, b: Fields)
    requires IsSubsequence(a, b)
    ensures IsSubsequence(Keys(a), Keys(b))
    decreases |b|
  {
    if a != [] {
      if a[0] == b[0] && IsSubsequence(a[1..], b[1..]) {
        KeysSubsequence(a[1..], b[1..]);
        assert Keys(a)[1..] == Keys(a[1..]) && Keys(b)[1..] == Keys(b[1..]);
      } else {
        KeysSubsequence(a, b[1..]);
        assert Keys(b)[1..] == Keys(b[1..]);
      }
    }
  }

  /** A dict whose values are all None becomes empty. */
  lemma {:induction false} DropNullsAllNull(fs: Fields)
    requires forall i :: 0 <= i < |fs| ==> fs[i].1 == JNull
    ensures DropNulls(fs) == []
  {
    if fs != [] {
      DropNullsAllNull(fs[1..]);
    }
  }

  /** A dict without None values is left as it is. */
  lemma {:induction false} DropNullsNoNulls(fs: Fields)
    requires forall i :: 0 <= i < |fs| ==> fs[i].1 != JNull
    ensures DropNulls(fs) == fs
  {
    if fs != [] {
      DropNullsNoNulls(fs[1..]);
      assert fs == [fs[0]] + fs[1..];
    }
  }

  /** Python truthiness of a JSON value: null, false, 0, "", [] and {} are falsy. */
  predicate PyTruthy(j: Json)
  {
    match j
    case JNull => false
    case JBool(b) => b
    case JInt(n) => n != 0
    case JStr(t) => t != ""
    case JList(xs) => xs != []
    case JObj(fs) => fs != []
  }

  /** The entries whose value is truthy: what a run of `if value: d[key] = value` statements keeps. */
  function DropFalsy(fs: Fields): (r: Fields)
    ensures |r| <= |fs|
    ensures forall i :: 0 <= i < |r| ==> PyTruthy(r[i].1)
  {
    if fs == [] then []
    else if !PyTruthy(fs[0].1) then DropFalsy(fs[1..])
    else [fs[0]] + DropFalsy(fs[1..])
  }

  lemma {:induction false} DropFalsyAppend(a: Fields, b: Fields)
    ensures DropFalsy(a + b) == DropFalsy(a) + DropFalsy(b)
  {
    if a == [] {
      assert a + b == b;
    } else {
      assert (a + b)[1..] == a[1..] + b;
      DropFalsyAppend(a[1..], b);
    }
  }

  /** An entry is kept exactly when it is an entry of the input with a truthy value. */
  lemma {:induction false} DropFalsyMembers(fs: Fields, x: (string, Json))
    ensures x in DropFalsy(fs) <==> x in fs && PyTruthy(x.1)
  {
    if fs != [] {
      DropFalsyMembers(fs[1..], x);
      assert fs == [fs[0]] + fs[1..];
    }
  }

  /** The kept entries stay in their insertion order. */
  lemma {:induction false} DropFalsyOrdered(fs: Fields)
    ensures IsSubsequence(DropFalsy(fs), fs)
  {
    if fs != [] {
      DropFalsyOrdered(fs[1..]);
      var r := DropFalsy(fs[1..]);
      if PyTruthy(fs[0].1) {
        assert ([fs[0]] + r)[1..] == r;
      }
    }
  }

  /**
   * `{k: record.get(k) for k in keys}`: exactly the listed keys, in order, each mapped to the
   * record's value or to null when the record lacks it.
   */
  function Project(record: Fields, keys: seq<string>): (r: Fields)
    ensures Keys(r) == keys
    ensures forall i :: 0 <= i < |keys| ==> r[i].1 == GetOr(record, keys[i], JNull)
  {
    if keys == [] then []
    else [(keys[0], GetOr(record, keys[0], JNull))] + Project(record, keys[1..])
  }
}

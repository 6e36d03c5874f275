/** Python values as the modelled code sees them: JSON-like documents plus callables.
    A `dict` is an association list in insertion order, because the code relies on
    insertion order (parameter files list fields in dict order). */
module Values {
  import opened Wrappers
  import opened Strings

  datatype Value =
    | Null
    | Bool(b: bool)
    | Int(i: int)
    | Float(r: real)
    | Str(s: string)
    | List(items: seq<Value>)
    | Dict(entries: seq<(string, Value)>)
    /** A Python callable, known by its name. */
    | Func(name: string)
    /** A NumPy array, by its elements. */
    | NdArray(elems: seq<Value>)
    /** Any other Python object, known by its type name and its `repr`. */
    | Opaque(typeName: string, repr: string)

  type Entries = seq<(string, Value)>

  /** The keys of a dict, in insertion order. */
  function Keys(e: Entries): (ks: seq<string>)
    ensures |ks| == |e|
    ensures forall i :: 0 <= i < |e| ==> ks[i] == e[i].0
  {
    if e == [] then [] else [e[0].0] + Keys(e[1..])
  }

  /** No key occurs twice, as in every Python dict. */
  predicate DistinctKeys(e: Entries)
  {
    forall i, j :: 0 <= i < j < |e| ==> e[i].0 != e[j].0
  }

  predicate HasKey(e: Entries, k: string)
  {
    exists i :: 0 <= i < |e| && e[i].0 == k
  }

  /** `d.get(k)`: the value under the first entry with key `k`. */
  function Lookup(e: Entries, k: string): (r: Option<Value>)
    ensures r.Some? <==> HasKey(e, k)
  {
    if e == [] then None
    else if e[0].0 == k then Some(e[0].1)
    else
      assert HasKey(e, k) <==> HasKey(e[1..], k) by {
        if HasKey(e, k) {
          var i :| 0 <= i < |e| && e[i].0 == k;
          assert e[1..][i - 1].0 == k;
        }
        if HasKey(e[1..], k) {
          var i :| 0 <= i < |e[1..]| && e[1..][i].0 == k;
          assert e[i + 1].0 == k;
        }
      }
      Lookup(e[1..], k)
  }

  /** `d[k] = v`: replaces the value of an existing key in place, or appends a new key. */
  function Put(e: Entries, k: string, v: Value): (r: Entries)
  {
    if e == [] then [(k, v)]
    else if e[0].0 == k then [(k, v)] + e[1..]
    else [e[0]] + Put(e[1..], k, v)
  }

  /** A second `d[k] = v` overrides the first. */
  lemma {:induction false} PutPut(e: Entries, k: string, v1: Value, v2: Value)
    ensures Put(Put(e, k, v1), k, v2) == Put(e, k, v2)
  {
    if e != [] && e[0].0 != k {
      PutPut(e[1..], k, v1, v2);
    }
  }

  /** Writing back the value a key already has changes nothing. */
  lemma {:induction false} PutLookup(e: Entries, k: string)
    requires HasKey(e, k)
    ensures Put(e, k, Lookup(e, k).value) == e
  {
    if e[0].0 != k {
      PutLookup(e[1..], k);
    }
  }

  /** `del d[k]` / `d.pop(k)`: drops the first entry with key `k`. */
  function Delete(e: Entries, k: string): (r: Entries)
  {
    if e == [] then []
    else if e[0].0 == k then e[1..]
    else [e[0]] + Delete(e[1..], k)
  }

  /** An entry whose key no earlier entry has is what a lookup of that key finds. */
  lemma {:induction false} LookupFirst(e: Entries, i: nat)
    requires i < |e| && forall j :: 0 <= j < i ==> e[j].0 != e[i].0
    ensures Lookup(e, e[i].0) == Some(e[i].1)
  {
    if i > 0 {
      forall j | 0 <= j < i - 1 ensures e[1..][j].0 != e[1..][i - 1].0 {
        assert e[1..][j] == e[j + 1];
      }
      LookupFirst(e[1..], i - 1);
    }
  }

  /** After `d[k] = v`, `d[k]` is `v`. */
  lemma {:induction false} LookupPutSame(e: Entries, k: string, v: Value)
    ensures Lookup(Put(e, k, v), k) == Some(v)
  {
    if e != [] && e[0].0 != k {
      LookupPutSame(e[1..], k, v);
    }
  }

  /** After `d[k] = v`, every other key keeps its value. */
  lemma {:induction false} LookupPutOther(e: Entries, k: string, v: Value, k2: string)
    requires k2 != k
    ensures Lookup(Put(e, k, v), k2) == Lookup(e, k2)
  {
    if e != [] && e[0].0 != k {
      LookupPutOther(e[1..], k, v, k2);
    }
  }

  /** Assigning an existing key keeps the key order; a new key goes last. */
  lemma {:induction false} KeysPut(e: Entries, k: string, v: Value)
    ensures HasKey(e, k) ==> Keys(Put(e, k, v)) == Keys(e)
    ensures !HasKey(e, k) ==> Keys(Put(e, k, v)) == Keys(e) + [k]
  {
    if e != [] && e[0].0 != k {
      KeysPut(e[1..], k, v);
      assert Lookup(e, k) == Lookup(e[1..], k);
    }
  }

  /** A Python dict stays a dict: assignment never duplicates a key. */
  lemma {:induction false} PutDistinct(e: Entries, k: string, v: Value)
    requires DistinctKeys(e)
    ensures DistinctKeys(Put(e, k, v))
  {
    KeysPut(e, k, v);
    var r := Put(e, k, v);
    assert Keys(r) == Keys(e) || (Keys(r) == Keys(e) + [k] && !HasKey(e, k));
    forall i, j | 0 <= i < j < |r|
      ensures r[i].0 != r[j].0
    {
      assert Keys(r)[i] == r[i].0 && Keys(r)[j] == r[j].0;
      if Keys(r) == Keys(e) {
        assert Keys(e)[i] == e[i].0 && Keys(e)[j] == e[j].0;
      } else if j == |e| {
        assert Keys(e)[i] == e[i].0;
      } else {
        assert Keys(e)[i] == e[i].0 && Keys(e)[j] == e[j].0;
      }
    }
  }

  /** After `del d[k]`, `k` is gone from a dict and the other keys keep their values. */
  lemma {:induction false} LookupDelete(e: Entries, k: string, k2: string)
    requires DistinctKeys(e)
    ensures Lookup(Delete(e, k), k2) == if k2 == k then None else Lookup(e, k2)
  {
    if e != [] {
      assert DistinctKeys(e[1..]) by {
        forall i, j | 0 <= i < j < |e[1..]| ensures e[1..][i].0 != e[1..][j].0 {
          assert e[1..][i] == e[i + 1] && e[1..][j] == e[j + 1];
        }
      }
      if e[0].0 == k {
        forall i | 0 <= i < |e[1..]| ensures e[1..][i].0 != k {
          assert e[1..][i] == e[i + 1];
        }
      } else {
        LookupDelete(e[1..], k, k2);
      }
    }
  }

  /** Python truthiness (`bool(v)`). */
  predicate Truthy(v: Value)
  {
    match v
    case Null => false
    case Bool(b) => b
    case Int(i) => i != 0
    case Float(r) => r != 0.0
    case Str(s) => s != ""
    case List(items) => items != []
    case Dict(entries) => entries != []
    case Func(_) => true
    case NdArray(elems) => elems != []
    case Opaque(_, _) => true
  }

  /** `d[k]` on a value: a `KeyError` for a missing key, a `TypeError` on a non-dict. */
  function GetItem(d: Value, k: string): (r: Result<Value>)
    ensures r.Ok? <==> d.Dict? && HasKey(d.entries, k)
    ensures r.Ok? ==> Lookup(d.entries, k) == Some(r.value)
    ensures d.Dict? && !HasKey(d.entries, k) ==> r == Err(KeyError(k))
  {
    if !d.Dict? then Err(TypeError("object is not subscriptable"))
    else match Lookup(d.entries, k)
      case Some(v) => Ok(v)
      case None => Err(KeyError(k))
  }

  /** `d.get(k, dflt)`: an `AttributeError` on a non-dict. */
  function GetOr(d: Value, k: string, dflt: Value): (r: Result<Value>)
    ensures r.Ok? <==> d.Dict?
    ensures d.Dict? && HasKey(d.entries, k) ==> r == GetItem(d, k)
    ensures d.Dict? && !HasKey(d.entries, k) ==> r == Ok(dflt)
  {
    if !d.Dict? then Err(AttributeError("get"))
    else match Lookup(d.entries, k)
      case Some(v) => Ok(v)
      case None => Ok(dflt)
  }

  /** `k in d` for a dict, list or string receiver. */
  function In(k: string, container: Value): (r: Result<bool>)
    ensures container.Dict? ==> r == Ok(HasKey(container.entries, k))
    ensures container.List? ==> r == Ok(Str(k) in container.items)
    ensures container.Str? ==> r == Ok(Contains(container.s, k))
    ensures r.Err? <==> !(container.Dict? || container.List? || container.Str?)
  {
    match container
    case Dict(e) => Ok(HasKey(e, k))
    case List(items) => Ok(Str(k) in items)
    case Str(s) => Ok(Contains(s, k))
    case _ => Err(TypeError("argument is not iterable"))
  }

  /** `d[k] = v` on a value; a `TypeError` on a non-dict. */
  function SetItem(d: Value, k: string, v: Value): (r: Result<Value>)
    ensures r.Ok? <==> d.Dict?
    ensures r.Ok? ==> r.value.Dict? && Lookup(r.value.entries, k) == Some(v)
  {
    if !d.Dict? then Err(TypeError("object does not support item assignment"))
    else
      LookupPutSame(d.entries, k, v);
      Ok(Dict(Put(d.entries, k, v)))
  }

  /** A value `json.dump` can write and `json.load` reads back as the same value:
      no callables, and no dict with a repeated key. */
  predicate JsonValue(v: Value)
  {
    match v
    case Func(_) => false
    case NdArray(_) => false
    case Opaque(_, _) => false
    case List(items) => forall i :: 0 <= i < |items| ==> JsonValue(items[i])
    case Dict(e) => DistinctKeys(e) && forall i :: 0 <= i < |e| ==> JsonValue(e[i].1)
    case _ => true
  }

  /** A Python dict key must be hashable: no list, dict or array. */
  predicate Hashable(v: Value)
  {
    !(v.List? || v.Dict? || v.NdArray?)
  }

  /** A string id read from a document: a `TypeError` when it is not a string. */
  function AsString(v: Value): (r: Result<string>)
    ensures r.Ok? <==> v.Str?
    ensures r.Ok? ==> r.value == v.s
  {
    if v.Str? then Ok(v.s) else Err(TypeError("expected str"))
  }

  /** `str(v)` for the scalars the code renders into generated files; `None` for the
      kinds whose rendering is not modelled (floats, containers, callables). */
  function PyStr(v: Value): (r: Option<string>)
    ensures v.Str? ==> r == Some(v.s)
  {
    match v
    case Null => Some("None")
    case Bool(b) => Some(if b then "True" else "False")
    case Int(i) => Some(IntToString(i))
    case Str(s) => Some(s)
    case _ => None
  }

  /** `str(v)`: the scalars the model renders itself, and `repr` for the rest (Python's
      `str` of a float, a list or a dict is its `repr`). */
  function StrOf(v: Value, repr: Value -> string): (r: string)
    ensures v.Str? ==> r == v.s
  {
    match PyStr(v)
    case Some(s) => s
    case None => repr(v)
  }

  /** The attributes of a Python object: a class, a module or a `SimpleNamespace`. */
  type Namespace = map<string, Value>

  /** `getattr(ns, a)`: a missing attribute raises `AttributeError`. */
  function GetAttr(ns: Namespace, a: string): (r: Result<Value>)
    ensures r.Ok? <==> a in ns
    ensures a in ns ==> r.value == ns[a]
    ensures a !in ns ==> r == Err(AttributeError(a))
  {
    if a in ns then Ok(ns[a]) else Err(AttributeError(a))
  }

  /** `getattr(ns, a, dflt)`. */
  function AttrOr(ns: Namespace, a: string, dflt: Value): (r: Value)
    ensures a in ns ==> r == ns[a]
    ensures a !in ns ==> r == dflt
  {
    if a in ns then ns[a] else dflt
  }

  /** `comp.get('Id', '')` rendered into an f-string. */
  function IdText(comp: Value): (r: string)
    ensures comp.Dict? && !HasKey(comp.entries, "Id") ==> r == ""
    ensures comp.Dict? && HasKey(comp.entries, "Id") && Lookup(comp.entries, "Id").value.Str? ==>
      r == Lookup(comp.entries, "Id").value.s
  {
    match GetOr(comp, "Id", Str(""))
    case Ok(v) => (match PyStr(v) case Some(s) => s case None => "")
    case Err(_) => ""
  }

  /** `for x in v`: a list yields its items, a dict its keys, a string its characters,
      an array its elements; anything else is not iterable. */
  function Iterate(v: Value): (r: Result<seq<Value>>)
    ensures v.List? ==> r == Ok(v.items)
    ensures r.Ok? <==> v.List? || v.Dict? || v.Str? || v.NdArray?
  {
    match v
    case List(items) => Ok(items)
    case Dict(e) => Ok(seq(|e|, i requires 0 <= i < |e| => Str(e[i].0)))
    case Str(s) => Ok(seq(|s|, i requires 0 <= i < |s| => Str([s[i]])))
    case NdArray(elems) => Ok(elems)
    case _ => Err(TypeError("object is not iterable"))
  }

  /** Prefixes the items of a successful result. */
  function PrefixResult(acc: seq<Value>, r: Result<seq<Value>>): (r': Result<seq<Value>>)
    ensures r'.Ok? <==> r.Ok?
    ensures r.Err? ==> r' == r
    ensures r.Ok? ==> r'.value == acc + r.value
    ensures acc == [] ==> r' == r
  {
    if r.Err? then r else assert [] + r.value == r.value; Ok(acc + r.value)
  }

  lemma PrefixResultAssoc(acc: seq<Value>, ds: seq<Value>, r: Result<seq<Value>>)
    ensures PrefixResult(acc, PrefixResult(ds, r)) == PrefixResult(acc + ds, r)
  {
    if r.Ok? {
      assert acc + (ds + r.value) == (acc + ds) + r.value;
    }
  }
}

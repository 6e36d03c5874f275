/** What every plugin inherits from `PluginBase` (`PluginBase.py`): the class-level
    descriptions, positional-argument parsing, `initialize` and `parse_dict`. A plugin
    instance is modelled by its attribute dictionary (`__dict__`), which the plugin
    classes update in place. */
module PluginBase {
  import opened Wrappers
  import opened Values

  /** The four descriptions `PluginBase` defines at class level, each `[]`. */
  const ClassAttrs: Namespace := map[
    "param_description" := List([]), "log_description" := List([]),
    "input_description" := List([]), "output_description" := List([])]

  /** Position `j` holds the key `k` of a pair: pairs start at even positions. */
  predicate KeyAt(args: seq<Value>, j: int, k: string)
  {
    0 <= j < |args| && j % 2 == 0 && args[j] == Str(k)
  }

  /** The value paired with position `j`: the next argument, `None` for a trailing key. */
  function PairValue(args: seq<Value>, j: int): Value
    requires 0 <= j < |args|
  {
    if j + 1 < |args| then args[j + 1] else Null
  }

  /** The dictionary after the first `n` pairs were read. */
  function Pairs(args: seq<Value>, n: nat): map<string, Value>
    requires 2 * n <= |args| + 1
  {
    if n == 0 then map[]
    else
      var m := Pairs(args, n - 1);
      var j := 2 * (n - 1);
      if args[j].Str? then m[args[j].s := PairValue(args, j)] else m
  }

  /** What `parse_positional_args(args)` returns. */
  function Parsed(args: seq<Value>): map<string, Value>
  {
    Pairs(args, (|args| + 1) / 2)
  }

  lemma {:induction false} PairsKey(args: seq<Value>, n: nat, k: string)
    requires 2 * n <= |args| + 1
    ensures k in Pairs(args, n) <==> exists j :: KeyAt(args, j, k) && j < 2 * n
  {
    if n > 0 {
      PairsKey(args, n - 1, k);
      if k in Pairs(args, n) && k !in Pairs(args, n - 1) {
        assert KeyAt(args, 2 * (n - 1), k);
      }
      if exists j :: KeyAt(args, j, k) && j < 2 * n {
        var j :| KeyAt(args, j, k) && j < 2 * n;
        if j != 2 * (n - 1) {
          assert j < 2 * (n - 1);
        }
      }
    }
  }

  lemma {:induction false} PairsValue(args: seq<Value>, n: nat, k: string, j: int)
    requires 2 * n <= |args| + 1 && KeyAt(args, j, k) && j < 2 * n
    requires forall j2 :: j < j2 < 2 * n ==> !KeyAt(args, j2, k)
    ensures k in Pairs(args, n) && Pairs(args, n)[k] == PairValue(args, j)
  {
    var j0 := 2 * (n - 1);
    if j != j0 {
      assert j < j0;
      assert !KeyAt(args, j0, k);
      PairsValue(args, n - 1, k, j);
    }
  }

  /** Arguments are read as key/value pairs: a key is any string at an even position, a
      non-string there is skipped together with its partner, a trailing key maps to
      `None`, and a repeated key keeps its last value. */
  lemma ParsedMeaning(args: seq<Value>)
    ensures forall k :: k in Parsed(args) <==> exists j :: KeyAt(args, j, k)
    ensures forall k, j :: KeyAt(args, j, k) && (forall j2 :: j < j2 < |args| ==> !KeyAt(args, j2, k)) ==>
      k in Parsed(args) && Parsed(args)[k] == PairValue(args, j)
  {
    var n := (|args| + 1) / 2;
    forall k ensures k in Parsed(args) <==> exists j :: KeyAt(args, j, k) {
      PairsKey(args, n, k);
    }
    forall k, j | KeyAt(args, j, k) && (forall j2 :: j < j2 < |args| ==> !KeyAt(args, j2, k))
      ensures k in Parsed(args) && Parsed(args)[k] == PairValue(args, j)
    {
      PairsValue(args, n, k, j);
    }
  }

  /** No arguments give `{}`; a string at an odd position is a value, never a key. */
  lemma ParsedExamples(v1: Value, v2: Value)
    ensures Parsed([]) == map[]
    ensures Parsed([Str("a"), v1, Str("a"), v2]) == map["a" := v2]
    ensures Parsed([Int(1), Str("a"), Str("b")]) == map["b" := Null]
  {
    var a := [Str("a"), v1, Str("a"), v2];
    assert Pairs(a, 1) == map["a" := v1];
    var b := [Int(1), Str("a"), Str("b")];
    assert Pairs(b, 1) == map[];
  }

  /** `parse_positional_args(args)`. */
  method ParsePositionalArgs(args: seq<Value>) returns (parsed: map<string, Value>)
    ensures parsed == Parsed(args)
  {
    if |args| == 0 {
      return map[];
    }
    var i := 0;
    parsed := map[];
    while true
      invariant 0 <= i <= |args| + 1 && i % 2 == 0
      invariant parsed == Pairs(args, i / 2)
      decreases |args| + 1 - i
    {
      if i >= |args| {
        break;
      }
      if args[i].Str? {
        if i + 1 < |args| {
          parsed := parsed[args[i].s := args[i + 1]];
        } else {
          parsed := parsed[args[i].s := Null];
        }
      }
      i := i + 2;
    }
  }

  /** `parsed.get(k, dflt)` on the parsed arguments. */
  function MapOr(m: map<string, Value>, k: string, dflt: Value): Value
  {
    if k in m then m[k] else dflt
  }

  /** The attributes after `setattr(obj, k, v)` for each keyword argument in turn. */
  function Overlay(ns: Namespace, kw: Entries): Namespace
    decreases |kw|
  {
    if kw == [] then ns
    else Overlay(ns, kw[..|kw| - 1])[kw[|kw| - 1].0 := kw[|kw| - 1].1]
  }

  /** The attributes present afterwards: the old ones and every keyword. */
  lemma {:induction false} OverlayKey(ns: Namespace, kw: Entries, k: string)
    ensures k in Overlay(ns, kw) <==> k in ns || HasKey(kw, k)
    decreases |kw|
  {
    if kw != [] {
      var p := kw[..|kw| - 1];
      OverlayKey(ns, p, k);
      assert HasKey(kw, k) <==> HasKey(p, k) || k == kw[|kw| - 1].0 by {
        if HasKey(kw, k) {
          var i :| 0 <= i < |kw| && kw[i].0 == k;
          if i < |p| { assert p[i].0 == k; }
        }
        if HasKey(p, k) {
          var i :| 0 <= i < |p| && p[i].0 == k;
          assert kw[i].0 == k;
        }
      }
    }
  }

  /** A keyword argument that no later one repeats becomes an attribute with its
      value. */
  lemma {:induction false} OverlayLast(ns: Namespace, kw: Entries, i: nat)
    requires i < |kw| && forall j :: i < j < |kw| ==> kw[j].0 != kw[i].0
    ensures kw[i].0 in Overlay(ns, kw) && Overlay(ns, kw)[kw[i].0] == kw[i].1
    decreases |kw|
  {
    var p := kw[..|kw| - 1];
    if i < |p| {
      assert p[i] == kw[i];
      OverlayLast(ns, p, i);
    }
  }

  /** Every keyword argument becomes an attribute with its value. */
  lemma OverlayAt(ns: Namespace, kw: Entries, i: nat)
    requires DistinctKeys(kw) && i < |kw|
    ensures kw[i].0 in Overlay(ns, kw) && Overlay(ns, kw)[kw[i].0] == kw[i].1
  {
    OverlayLast(ns, kw, i);
  }

  /** The other attributes keep their values. */
  lemma {:induction false} OverlayOther(ns: Namespace, kw: Entries, k: string)
    requires k in ns && !HasKey(kw, k)
    ensures k in Overlay(ns, kw) && Overlay(ns, kw)[k] == ns[k]
    decreases |kw|
  {
    if kw != [] {
      var p := kw[..|kw| - 1];
      assert !HasKey(p, k) by {
        forall i | 0 <= i < |p| ensures p[i].0 != k {
          assert p[i] == kw[i];
        }
      }
      assert kw[|kw| - 1].0 != k;
      OverlayOther(ns, p, k);
    }
  }

  /** `np.zeros(n)` for an integer `n`; `len` of the result is `n`. */
  function Zeros(n: Value): (r: Result<Value>)
    ensures n.Int? && n.i >= 0 ==> r.Ok? && r.value.NdArray? && |r.value.elems| == n.i
    ensures n.Int? && n.i < 0 ==> r.Err?
  {
    match n
    case Int(k) =>
      if k < 0 then Err(ValueError("negative dimensions are not allowed"))
      else Ok(NdArray(seq(k, _ => Float(0.0))))
    case Bool(b) => Ok(NdArray(if b then [Float(0.0)] else []))
    case _ => Err(TypeError("expected a sequence of integers or a single integer"))
  }

  /** `len(v)`. */
  function Len(v: Value): (r: Result<int>)
    ensures v.List? ==> r == Ok(|v.items|)
    ensures v.NdArray? ==> r == Ok(|v.elems|)
    ensures r.Ok? ==> r.value >= 0
  {
    match v
    case List(items) => Ok(|items|)
    case NdArray(elems) => Ok(|elems|)
    case Dict(e) => Ok(|e|)
    case Str(s) => Ok(|s|)
    case _ => Err(TypeError("object has no len()"))
  }

  /** `n == v` for an int `n`: equal to the same int, the same float or the bool with
      that value. */
  predicate EqInt(n: int, v: Value)
  {
    match v
    case Int(i) => i == n
    case Float(x) => x == n as real
    case Bool(b) => (if b then 1 else 0) == n
    case _ => false
  }

  /** `assert len(ic) == dims["Outputs"], ...`: `len(ic)` is taken first, then the
      dimension is looked up, then they are compared. */
  function CheckOutputs(ic: Value, dims: Value): (r: Outcome)
    ensures r == Pass <==> Len(ic).Ok? && GetItem(dims, "Outputs").Ok? && EqInt(Len(ic).value, GetItem(dims, "Outputs").value)
    ensures Len(ic).Err? ==> r == Fail(Len(ic).error)
  {
    match Len(ic)
    case Err(e) => Fail(e)
    case Ok(n) =>
      match GetItem(dims, "Outputs")
      case Err(e) => Fail(e)
      case Ok(outputs) =>
        if EqInt(n, outputs) then Pass
        else Fail(AssertionError("Initial conditions length does not match number of outputs."))
  }

  /** `np.zeros(dims["Outputs"])`. */
  function ZerosFor(dims: Value): (r: Result<Value>)
    ensures GetItem(dims, "Outputs").Err? ==> r == Err(GetItem(dims, "Outputs").error)
    ensures GetItem(dims, "Outputs").Ok? ==> r == Zeros(GetItem(dims, "Outputs").value)
  {
    var outputs :- GetItem(dims, "Outputs");
    Zeros(outputs)
  }

  /** Whichever way the initial condition was obtained, by the length check or as zeros,
      it has as many elements as the dimensions' `Outputs` says. */
  lemma InitialConditionLength(ic: Value, dims: Value, n: nat)
    requires GetItem(dims, "Outputs") == Ok(Int(n))
    ensures CheckOutputs(ic, dims) == Pass ==> Len(ic) == Ok(n)
    ensures ZerosFor(dims).Ok? && Len(ZerosFor(dims).value) == Ok(n) && CheckOutputs(ZerosFor(dims).value, dims) == Pass
  {
  }

  /** A plugin instance, by its attribute dictionary. */
  class Instance {
    var attrs: Namespace

    constructor()
      ensures attrs == map[]
    {
      attrs := map[];
    }

    /** `initialize(**kwargs)`. */
    method Initialize(kwargs: Entries)
      modifies this
      ensures attrs == Overlay(old(attrs), kwargs)
    {
      var i := 0;
      while i < |kwargs|
        invariant 0 <= i <= |kwargs|
        invariant attrs == Overlay(old(attrs), kwargs[..i])
      {
        assert kwargs[..i + 1][..i] == kwargs[..i];
        attrs := attrs[kwargs[i].0 := kwargs[i].1];
        i := i + 1;
      }
      assert kwargs[..|kwargs|] == kwargs;
    }

    /** The `is_configured` property. */
    function IsConfigured(): (r: Result<Value>)
      reads this
      ensures r.Ok? <==> "_is_configured" in attrs
    {
      GetAttr(attrs, "_is_configured")
    }
  }

  /** An object `parse_dict` builds: `None`, a namespace, a list, or a value left as it
      was. */
  datatype Obj = ONone | ONamespace(fields: seq<(string, Obj)>) | OList(elems: seq<Obj>) | OLeaf(v: Value)

  /** `PluginBase.parse_dict(d)`, except that a float is left as it is. */
  function ParseDict(d: Value): Obj
    decreases d
  {
    match d
    case Null => ONone
    case Dict(e) => ONamespace(seq(|e|, i requires 0 <= i < |e| => (e[i].0, ParseDict(e[i].1))))
    case List(items) => OList(seq(|items|, i requires 0 <= i < |items| => ParseDict(items[i])))
    case _ => OLeaf(d)
  }

  /** Reading a built object back: a namespace through `vars`, a list element-wise. */
  function ToValue(o: Obj): Value
    decreases o
  {
    match o
    case ONone => Null
    case ONamespace(fs) => Dict(seq(|fs|, i requires 0 <= i < |fs| => (fs[i].0, ToValue(fs[i].1))))
    case OList(es) => List(seq(|es|, i requires 0 <= i < |es| => ToValue(es[i])))
    case OLeaf(v) => v
  }

  /** Nothing is lost: reading back what `parse_dict` built gives the document, dicts
      becoming namespaces with the same fields in the same order and lists staying
      lists of the same length. */
  lemma {:induction false} ParseDictRoundTrip(d: Value)
    ensures ToValue(ParseDict(d)) == d
    decreases d
  {
    match d
    case Dict(e) =>
      forall i | 0 <= i < |e| ensures ToValue(ParseDict(e[i].1)) == e[i].1 {
        ParseDictRoundTrip(e[i].1);
      }
      var back := ToValue(ParseDict(d));
      assert back.entries == e;
    case List(items) =>
      forall i | 0 <= i < |items| ensures ToValue(ParseDict(items[i])) == items[i] {
        ParseDictRoundTrip(items[i]);
      }
      assert ToValue(ParseDict(d)).items == items;
    case _ =>
  }
}

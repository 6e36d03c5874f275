/** Walking the components of an environment (`env_iterators.py`). The environment is
    the namespace `load_environment_data` returns, from attribute name to value. A
    generator is modelled by what it yields when it runs to its end: the items, and
    whether it stopped normally or by raising. */
module EnvIterators {
  import opened Wrappers
  import opened Values

  /** The items a generator yields and how it stops. */
  datatype Stream = Stream(items: seq<Value>, stop: Outcome)

  const Done := Stream([], Pass)

  /** Running one generator after another: the second starts only when the first stops
      normally. */
  function Append(s: Stream, t: Stream): (r: Stream)
    ensures s.stop.Fail? ==> r == s
    ensures s.stop == Pass ==> r == Stream(s.items + t.items, t.stop)
  {
    if s.stop.Fail? then s else Stream(s.items + t.items, t.stop)
  }

  lemma AppendAssoc(s: Stream, t: Stream, u: Stream)
    ensures Append(Append(s, t), u) == Append(s, Append(t, u))
  {
    if s.stop == Pass && t.stop == Pass {
      assert s.items + t.items + u.items == s.items + (t.items + u.items);
    }
  }

  lemma AppendDone(s: Stream)
    ensures Append(s, Done) == s && Append(Done, s) == s
  {
    assert s.items + [] == s.items;
    assert [] + s.items == s.items;
  }

  /** The attributes `iterate_environment_components` walks, in order. */
  const ComponentKinds: seq<string> := ["systems", "controllers", "scenarios", "metrics"]

  /** The components under the attributes `kinds`; a missing attribute yields nothing and
      a present one that cannot be iterated raises. */
  function KindsFrom(ns: Namespace, kinds: seq<string>): Stream
    decreases |kinds|
  {
    if kinds == [] then Done
    else match Iterate(AttrOr(ns, kinds[0], List([])))
      case Err(e) => Stream([], Fail(e))
      case Ok(cs) => Append(Stream(cs, Pass), KindsFrom(ns, kinds[1..]))
  }

  /** `iterate_environment_components(env_info)`. */
  function Components(ns: Namespace): Stream
  {
    KindsFrom(ns, ComponentKinds)
  }

  /** The list an attribute holds, `[]` when it is missing. */
  function ListAttr(ns: Namespace, a: string): seq<Value>
  {
    if a in ns && ns[a].List? then ns[a].items else []
  }

  /** Every attribute walked is a list or missing. */
  predicate ListShaped(ns: Namespace)
  {
    forall a :: a in ns && a in ComponentKinds ==> ns[a].List?
  }

  /** Systems come first, then controllers, scenarios and metrics; a missing attribute
      contributes nothing. */
  lemma ComponentsOrder(ns: Namespace)
    requires ListShaped(ns)
    ensures Components(ns) == Stream(ListAttr(ns, "systems") + ListAttr(ns, "controllers") +
      ListAttr(ns, "scenarios") + ListAttr(ns, "metrics"), Pass)
  {
    var ks := ComponentKinds;
    assert ks[1..] == ["controllers", "scenarios", "metrics"];
    assert ks[1..][1..] == ["scenarios", "metrics"];
    assert ks[1..][1..][1..] == ["metrics"];
    assert ks[1..][1..][1..][1..] == [];
    var m := ListAttr(ns, "metrics");
    assert KindsFrom(ns, ["metrics"]) == Stream(m, Pass) by {
      assert m + [] == m;
    }
    var s := ListAttr(ns, "scenarios");
    assert KindsFrom(ns, ["scenarios", "metrics"]) == Stream(s + m, Pass);
    var c := ListAttr(ns, "controllers");
    assert KindsFrom(ns, ["controllers", "scenarios", "metrics"]) == Stream(c + (s + m), Pass);
    var y := ListAttr(ns, "systems");
    assert y + (c + (s + m)) == y + c + s + m;
  }

  /** A component attribute that is neither missing nor iterable raises, after everything
      from the attributes before it was yielded. */
  lemma ComponentsStopAtBadAttr(ns: Namespace)
    requires "systems" in ns && ns["systems"].List?
    requires "controllers" in ns && Iterate(ns["controllers"]).Err?
    ensures Components(ns) == Stream(ns["systems"].items, Fail(Iterate(ns["controllers"]).error))
  {
    var ks := ComponentKinds;
    assert ks[1..] == ["controllers", "scenarios", "metrics"];
  }

  /** `c[sc_field]` inside the walk: a string key is looked up, an unhashable key raises
      `TypeError` and any other key is missing. */
  function FieldValue(c: Value, f: Value): (r: Result<Value>)
    ensures f.Str? ==> r == GetItem(c, f.s)
  {
    match f
    case Str(s) => GetItem(c, s)
    case List(_) => Err(TypeError("unhashable type"))
    case Dict(_) => Err(TypeError("unhashable type"))
    case NdArray(_) => Err(TypeError("unhashable type"))
    case _ => Err(KeyError(match PyStr(f) case Some(s) => s case None => ""))
  }

  /** What one subcomponent field yields: every element of a list, placeholders
      included, and a scalar only when it is truthy. */
  function FieldItems(subc: Value): (r: seq<Value>)
    ensures subc.List? ==> r == subc.items
    ensures !subc.List? ==> (r == [subc] <==> Truthy(subc)) && (r == [] <==> !Truthy(subc))
  {
    if subc.List? then subc.items else if Truthy(subc) then [subc] else []
  }

  /** The fields `fs` of component `c`, in order. */
  function FieldsFrom(c: Value, fs: seq<Value>): Stream
    decreases |fs|
  {
    if fs == [] then Done
    else match FieldValue(c, fs[0])
      case Err(e) => Stream([], Fail(e))
      case Ok(subc) => Append(Stream(FieldItems(subc), Pass), FieldsFrom(c, fs[1..]))
  }

  /** What a component yields after itself: nothing without `Subcomponents`, else the
      fields it names. Only this one level is expanded. */
  function SubsOf(c: Value): Stream
  {
    match In("Subcomponents", c)
    case Err(e) => Stream([], Fail(e))
    case Ok(false) => Done
    case Ok(true) =>
      match GetItem(c, "Subcomponents")
      case Err(e) => Stream([], Fail(e))
      case Ok(names) =>
        match Iterate(names)
        case Err(e) => Stream([], Fail(e))
        case Ok(fs) => FieldsFrom(c, fs)
  }

  /** Each component followed by what `SubsOf` gives for it. */
  function Expand(cs: seq<Value>): Stream
    decreases |cs|
  {
    if cs == [] then Done
    else Append(Append(Stream([cs[0]], Pass), SubsOf(cs[0])), Expand(cs[1..]))
  }

  /** `iterate_environment_components_with_subcomponents(env_info)`: the expansion of
      every top-level component yielded, then however the top-level walk stopped. */
  function WithSubcomponents(ns: Namespace): Stream
  {
    var top := Components(ns);
    Append(Expand(top.items), Stream([], top.stop))
  }

  /** Expanding two runs of components one after the other. */
  lemma {:induction false} ExpandConcat(a: seq<Value>, b: seq<Value>)
    ensures Expand(a + b) == Append(Expand(a), Expand(b))
    decreases |a|
  {
    if a == [] {
      assert a + b == b;
      AppendDone(Expand(b));
    } else {
      assert (a + b)[0] == a[0] && (a + b)[1..] == a[1..] + b;
      ExpandConcat(a[1..], b);
      AppendAssoc(Append(Stream([a[0]], Pass), SubsOf(a[0])), Expand(a[1..]), Expand(b));
    }
  }

  /** Each component is yielded immediately before its own subcomponents: when the
      components before it expand without raising, the expansion of the whole list
      holds, at the position where theirs ends, the component and then its fields. */
  lemma ComponentThenSubcomponents(cs: seq<Value>, i: nat)
    requires i < |cs| && Expand(cs[..i]).stop == Pass && SubsOf(cs[i]).stop == Pass
    ensures var n := |Expand(cs[..i]).items|; var sub := SubsOf(cs[i]).items;
      n + 1 + |sub| <= |Expand(cs).items| &&
      Expand(cs).items[n] == cs[i] &&
      Expand(cs).items[n + 1..n + 1 + |sub|] == sub
  {
    assert cs == cs[..i] + cs[i..];
    ExpandConcat(cs[..i], cs[i..]);
    assert cs[i..][0] == cs[i];
    var head := Expand(cs[..i]).items;
    var sub := SubsOf(cs[i]).items;
    var rest := Expand(cs[i..][1..]).items;
    assert Expand(cs[i..]).items[..1 + |sub|] == [cs[i]] + sub;
    assert Expand(cs).items == head + Expand(cs[i..]).items;
  }

  /** A dict without `Subcomponents` yields nothing after itself. */
  lemma NoSubcomponentsKey(c: Value)
    requires c.Dict? && !HasKey(c.entries, "Subcomponents")
    ensures SubsOf(c) == Done
  {
  }

  /** The `Subcomponents` list of a dict component, when it is one. */
  predicate NamesFields(c: Value, fs: seq<Value>)
  {
    c.Dict? && Lookup(c.entries, "Subcomponents") == Some(List(fs))
  }

  /** A field named in `Subcomponents` but absent from the component raises `KeyError`
      once the walk reaches it, after the fields before it were yielded. */
  lemma {:induction false} MissingFieldRaises(c: Value, fs: seq<Value>, j: nat, f: string)
    requires c.Dict? && j < |fs| && fs[j] == Str(f) && !HasKey(c.entries, f)
    requires forall k :: 0 <= k < j ==> fs[k].Str? && HasKey(c.entries, fs[k].s)
    ensures FieldsFrom(c, fs).stop == Fail(KeyError(f))
    decreases j
  {
    if j > 0 {
      assert fs[0].Str? && HasKey(c.entries, fs[0].s);
      forall k | 0 <= k < j - 1 ensures fs[1..][k].Str? && HasKey(c.entries, fs[1..][k].s) {
        assert fs[1..][k] == fs[k + 1];
      }
      MissingFieldRaises(c, fs[1..], j - 1, f);
    }
  }

  /** ... and so does the component itself. */
  lemma MissingSubcomponentRaises(c: Value, fs: seq<Value>, j: nat, f: string)
    requires NamesFields(c, fs) && j < |fs| && fs[j] == Str(f) && !HasKey(c.entries, f)
    requires forall k :: 0 <= k < j ==> fs[k].Str? && HasKey(c.entries, fs[k].s)
    ensures SubsOf(c).stop == Fail(KeyError(f))
  {
    MissingFieldRaises(c, fs, j, f);
  }

  /** A component naming one field yields that field's items: all of a list,
      placeholders included, and a scalar only when it is truthy. */
  lemma OneField(c: Value, f: string, v: Value)
    requires NamesFields(c, [Str(f)]) && Lookup(c.entries, f) == Some(v)
    ensures SubsOf(c) == Stream(FieldItems(v), Pass)
  {
    assert FieldsFrom(c, [Str(f)]) == Stream(FieldItems(v) + [], Pass);
    assert FieldItems(v) + [] == FieldItems(v);
  }

  /** An empty `{}` placeholder inside a list field is yielded; the same placeholder as a
      scalar field is not. */
  lemma PlaceholderInListOnly(c: Value, f: string)
    requires NamesFields(c, [Str(f)])
    ensures Lookup(c.entries, f) == Some(List([Dict([])])) ==> SubsOf(c) == Stream([Dict([])], Pass)
    ensures Lookup(c.entries, f) == Some(Dict([])) ==> SubsOf(c) == Done
  {
    if Lookup(c.entries, f) == Some(List([Dict([])])) {
      OneField(c, f, List([Dict([])]));
    }
    if Lookup(c.entries, f) == Some(Dict([])) {
      OneField(c, f, Dict([]));
    }
  }

  /** Only one level is expanded: a subcomponent's own subcomponents are not walked. */
  lemma OneLevelOnly(c: Value, s: Value, f: string)
    requires NamesFields(c, [Str(f)]) && Lookup(c.entries, f) == Some(s)
    requires Truthy(s) && !s.List?
    ensures Expand([c]) == Stream([c, s], Pass)
  {
    OneField(c, f, s);
    assert [c] + [s] == [c, s];
    assert [c, s] + [] == [c, s];
  }
}

/** The plugin registry's view of one plugin file (`registry.py`): whether a class is a
    CasADi component, the descriptor built for a plugin file, and copying an object's
    public attributes. */
module Registry {
  import opened Wrappers
  import opened Values
  import opened FileSystem
  import opened PluginHelpers
  import PluginBase

  /** The attribute the first class on the MRO that defines `a` gives it. */
  lemma {:induction false} ClassAttrFirst(mro: seq<(string, Namespace)>, a: string, k: nat)
    requires k < |mro| && a in mro[k].1
    requires forall j :: 0 <= j < k ==> a !in mro[j].1
    ensures ClassAttr(mro, a) == Some(mro[k].1[a])
  {
    if k > 0 {
      forall j | 0 <= j < k - 1 ensures a !in mro[1..][j].1 {
        assert mro[1..][j] == mro[j + 1];
      }
      ClassAttrFirst(mro[1..], a, k - 1);
    }
  }

  /** `is_casadi_component(plugin_class)`: the flag must be exactly `True`. */
  predicate IsCasadiComponent(c: PyClass)
  {
    ClassAttr(c.mro, "casadi_plugin__") == Some(Bool(true))
  }

  /** The flag set by `CasadiController`/`CasadiDynSystem` is inherited unless a class
      before it on the MRO redefines it; a redefinition to another truthy value such as
      `1` does not count. */
  lemma CasadiInherited(c: PyClass, k: nat)
    requires k < |c.mro| && "casadi_plugin__" in c.mro[k].1
    requires forall j :: 0 <= j < k ==> "casadi_plugin__" !in c.mro[j].1
    ensures IsCasadiComponent(c) <==> c.mro[k].1["casadi_plugin__"] == Bool(true)
    ensures c.mro[k].1["casadi_plugin__"] == Int(1) ==> !IsCasadiComponent(c)
  {
    ClassAttrFirst(c.mro, "casadi_plugin__", k);
  }

  /** `getattr(plugin_class, a, dflt)`. */
  function ClassAttrOr(c: PyClass, a: string, dflt: Value): (r: Value)
    ensures ClassAttr(c.mro, a).None? ==> r == dflt
    ensures ClassAttr(c.mro, a).Some? ==> r == ClassAttr(c.mro, a).value
  {
    match ClassAttr(c.mro, a)
    case Some(v) => v
    case None => dflt
  }

  const NoDescription := "No description provided."

  /** The descriptor of an accepted plugin class. */
  function InfoOf(c: PyClass): (r: Value)
    ensures r.Dict?
  {
    var pd := ClassAttr(c.mro, "param_description");
    Dict([("Name", Str(c.name)), ("T", Str(ParsePluginType(c))),
          ("HasParameters", Bool(pd.Some? && pd.value != Null)),
          ("Description", ClassAttrOr(c, "description", Str(NoDescription))),
          ("Parameters", ClassAttrOr(c, "param_description", Null)),
          ("IsCasadi", Bool(IsCasadiComponent(c)))])
  }

  /** The checks `get_plugin_info_from_file` makes of what it loaded: it must be a
      class, with `PluginBase` among its ancestors. */
  function PluginInfo(m: Member): (r: Result<Value>)
    ensures m.ValueMember? ==> r.Err? && r.error.AttributeError?
    ensures m.ClassMember? && !Derives(m.cls, PluginBaseName) ==>
      r == Err(ValueError("Plugin '" + m.cls.name + "' does not implement the abstract class 'PluginBase'."))
    ensures m.ClassMember? && Derives(m.cls, PluginBaseName) ==> r == Ok(InfoOf(m.cls))
  {
    match m
    case ValueMember(v) => Err(AttributeError(if v.Func? then "__mro__" else "__name__"))
    case ClassMember(c) =>
      AnyBaseDerives(c, PluginBaseName);
      if !AnyBase(c, PluginBaseName) then
        Err(ValueError("Plugin '" + c.name + "' does not implement the abstract class 'PluginBase'."))
      else Ok(InfoOf(c))
  }

  /** `get_plugin_info_from_file(plugin_path)`. */
  function GetPluginInfoFromFile(fs: FS, cwd: Path, importer: Importer, path: string): (r: Result<Value>)
    ensures GetPluginClass(fs, cwd, importer, path).Err? ==> r == Err(GetPluginClass(fs, cwd, importer, path).error)
    ensures GetPluginClass(fs, cwd, importer, path).Ok? ==> r == PluginInfo(GetPluginClass(fs, cwd, importer, path).value)
  {
    var m :- GetPluginClass(fs, cwd, importer, path);
    PluginInfo(m)
  }

  /** The descriptor names the class and gives its classification, which may be `''`,
      and whether it is a CasADi component. */
  lemma InfoFields(c: PyClass)
    ensures var e := InfoOf(c).entries;
      Lookup(e, "Name") == Some(Str(c.name)) && Lookup(e, "T") == Some(Str(ParsePluginType(c))) &&
      Lookup(e, "IsCasadi") == Some(Bool(IsCasadiComponent(c)))
    ensures var e := InfoOf(c).entries;
      Lookup(e, "Description") == Some(ClassAttrOr(c, "description", Str(NoDescription))) &&
      Lookup(e, "Parameters") == Some(ClassAttrOr(c, "param_description", Null))
  {
    var e := InfoOf(c).entries;
    assert e[1].0 == "T" && e[1].0[0] == 'T' && e[0].0[0] == 'N';
    LookupFirst(e, 1);
    assert e[3].0 == "Description";
    forall j | 0 <= j < 3 ensures e[j].0 != e[3].0 {
      assert e[j].0[0] != 'D';
    }
    LookupFirst(e, 3);
    assert e[4].0 == "Parameters";
    forall j | 0 <= j < 4 ensures e[j].0 != e[4].0 {
      assert e[j].0[0] != 'P';
    }
    LookupFirst(e, 4);
    assert e[5].0 == "IsCasadi";
    forall j | 0 <= j < 5 ensures e[j].0 != e[5].0 {
      assert e[j].0[0] != 'I';
    }
    LookupFirst(e, 5);
  }

  /** On every path where the `PluginBase` on the MRO is the real one, the class has a
      `param_description`, so an accepted plugin reports parameters unless some class
      sets them to `None`; a class that defines none reports `[]`. */
  lemma AcceptedHasParameters(c: PyClass, k: nat)
    requires k < |c.mro| && c.mro[k] == (PluginBaseName, PluginBase.ClassAttrs)
    requires forall j :: 0 <= j < |c.mro| && "param_description" in c.mro[j].1 ==> c.mro[j].1["param_description"] != Null
    ensures PluginInfo(ClassMember(c)).Ok?
    ensures Lookup(PluginInfo(ClassMember(c)).value.entries, "HasParameters") == Some(Bool(true))
    ensures (forall j :: 0 <= j < k ==> "param_description" !in c.mro[j].1) ==>
      Lookup(PluginInfo(ClassMember(c)).value.entries, "Parameters") == Some(List([]))
  {
    assert Derives(c, PluginBaseName);
    ParamsDefined(c, k);
    InfoHasParameters(c);
    if forall j :: 0 <= j < k ==> "param_description" !in c.mro[j].1 {
      InfoFields(c);
      ClassAttrFirst(c.mro, "param_description", k);
    }
  }

  /** With the real `PluginBase` on the MRO and no class setting it to `None`, the
      class finds a `param_description` other than `None`. */
  lemma ParamsDefined(c: PyClass, k: nat)
    requires k < |c.mro| && c.mro[k] == (PluginBaseName, PluginBase.ClassAttrs)
    requires forall j :: 0 <= j < |c.mro| && "param_description" in c.mro[j].1 ==> c.mro[j].1["param_description"] != Null
    ensures ClassAttr(c.mro, "param_description").Some? && ClassAttr(c.mro, "param_description").value != Null
  {
    assert "param_description" in c.mro[k].1;
    var pd := ClassAttr(c.mro, "param_description");
    assert pd.Some?;
    ParamFromSomeClass(c.mro, "param_description");
  }

  /** The descriptor says whether the class has a `param_description` other than `None`. */
  lemma InfoHasParameters(c: PyClass)
    ensures var pd := ClassAttr(c.mro, "param_description");
      Lookup(InfoOf(c).entries, "HasParameters") == Some(Bool(pd.Some? && pd.value != Null))
  {
    var e := InfoOf(c).entries;
    assert e[2].0 == "HasParameters";
    forall j | 0 <= j < 2 ensures e[j].0 != e[2].0 {
      assert e[j].0[0] != 'H';
    }
    LookupFirst(e, 2);
  }

  /** What `getattr` finds is defined by some class on the MRO. */
  lemma {:induction false} ParamFromSomeClass(mro: seq<(string, Namespace)>, a: string)
    requires ClassAttr(mro, a).Some?
    ensures exists i :: 0 <= i < |mro| && a in mro[i].1 && mro[i].1[a] == ClassAttr(mro, a).value
  {
    if a !in mro[0].1 {
      ParamFromSomeClass(mro[1..], a);
      var i :| 0 <= i < |mro[1..]| && a in mro[1..][i].1 && mro[1..][i].1[a] == ClassAttr(mro[1..], a).value;
      assert mro[i + 1] == mro[1..][i];
    }
  }

  /** The attributes `parse_plugin` copies: the names `dir(obj)` lists that do not
      start with `_`. */
  predicate Public(n: string)
  {
    !(|n| > 0 && n[0] == '_')
  }

  /** The first listed public name `getattr` cannot find. */
  function FirstMissing(attrs: Namespace, names: seq<string>): (r: Option<string>)
    ensures r.None? <==> forall i :: 0 <= i < |names| && Public(names[i]) ==> names[i] in attrs
    ensures r.Some? ==> r.value in names && Public(r.value) && r.value !in attrs
    decreases |names|
  {
    if names == [] then None
    else if Public(names[0]) && names[0] !in attrs then Some(names[0])
    else
      var r := FirstMissing(attrs, names[1..]);
      assert r.None? ==> forall i :: 0 <= i < |names| && Public(names[i]) ==> names[i] in attrs by {
        if r.None? {
          forall i | 0 <= i < |names| && Public(names[i]) ensures names[i] in attrs {
            if i > 0 { assert names[1..][i - 1] == names[i]; }
          }
        }
      }
      r
  }

  /** What `parse_plugin(obj)` returns, given the names `dir(obj)` lists and the
      attributes `getattr` finds: the public attributes, or the `AttributeError` of the
      first listed public name that cannot be found. */
  function ParsePluginSpec(attrs: Namespace, names: seq<string>): (r: Result<Namespace>)
    ensures r.Ok? <==> forall i :: 0 <= i < |names| && Public(names[i]) ==> names[i] in attrs
    ensures r.Ok? ==> r.value.Keys == set n | n in names && Public(n)
    ensures r.Ok? ==> forall n :: n in r.value ==> r.value[n] == attrs[n]
  {
    match FirstMissing(attrs, names)
    case None => Ok(map n | n in names && Public(n) :: attrs[n])
    case Some(n) => Err(AttributeError(n))
  }

  /** `parse_plugin(obj)`. */
  method ParsePlugin(attrs: Namespace, names: seq<string>) returns (r: Result<Namespace>)
    ensures r == ParsePluginSpec(attrs, names)
  {
    var ret: Namespace := map[];
    var i := 0;
    while i < |names|
      invariant 0 <= i <= |names|
      invariant FirstMissing(attrs, names[i..]) == FirstMissing(attrs, names)
      invariant forall j :: 0 <= j < i && Public(names[j]) ==> names[j] in attrs
      invariant ret.Keys == set n | n in names[..i] && Public(n)
      invariant forall n :: n in ret ==> n in attrs && ret[n] == attrs[n]
    {
      PublicPrefixStep(names, i);
      FirstMissingStep(attrs, names, i);
      if !Public(names[i]) {
        i := i + 1;
        continue;
      }
      if names[i] !in attrs {
        return Err(AttributeError(names[i]));
      }
      ret := ret[names[i] := attrs[names[i]]];
      i := i + 1;
    }
    assert names[..i] == names;
    assert ret == ParsePluginSpec(attrs, names).value;
    r := Ok(ret);
  }

  /** The public names of a prefix grow by the next name when it is public. */
  lemma PublicPrefixStep(names: seq<string>, i: nat)
    requires i < |names|
    ensures (set n | n in names[..i + 1] && Public(n)) ==
      (set n | n in names[..i] && Public(n)) + (if Public(names[i]) then {names[i]} else {})
  {
    assert names[..i + 1] == names[..i] + [names[i]];
  }

  /** `FirstMissing` of a suffix looks at its first name, then at the rest. */
  lemma FirstMissingStep(attrs: Namespace, names: seq<string>, i: nat)
    requires i < |names|
    ensures FirstMissing(attrs, names[i..]) ==
      if Public(names[i]) && names[i] !in attrs then Some(names[i]) else FirstMissing(attrs, names[i + 1..])
  {
    assert names[i..][0] == names[i] && names[i..][1..] == names[i + 1..];
  }

  /** When `dir` lists exactly the object's attributes, the copy holds exactly the
      public ones with their values. */
  lemma ParsePluginCopiesPublic(attrs: Namespace, names: seq<string>)
    requires forall n :: n in attrs <==> n in names
    ensures ParsePluginSpec(attrs, names) == Ok(map n | n in attrs && Public(n) :: attrs[n])
  {
    var r := ParsePluginSpec(attrs, names);
    assert r.Ok?;
    var m := map n | n in attrs && Public(n) :: attrs[n];
    assert r.value.Keys == m.Keys;
  }
}

/** Evaluating the parameters of Python plugins (`eval_parameters.py`). A parameter file
    is a module holding a class `ComponentParams`; each parameter the plugin describes
    is read from that class, and a `None` there is replaced by the described default.
    Importing a file, calling a Python function, `repr`, the library backend's plugin
    lookup and the component's parameter-file path are parameters of the model. */
module EvalParameters {
  import opened Wrappers
  import opened Strings
  import opened Values
  import opened FileSystem
  import opened PyPaths
  import opened PluginHelpers
  import opened EnvIterators

  /** What the evaluation can observe of the world: the file tree, the working
      directory, the module importer, calling a callable with the parameters evaluated
      so far, and `repr`. */
  datatype Ctx = Ctx(fs: FS, cwd: Path, importer: Importer, call: (Value, Namespace) -> Result<Value>, repr: Value -> string)

  /** `f(params)`: only a callable can be called. */
  function Call(ctx: Ctx, f: Value, params: Namespace): (r: Result<Value>)
    ensures f.Func? ==> r == ctx.call(f, params)
    ensures !f.Func? ==> r == Err(TypeError("object is not callable"))
  {
    if f.Func? then ctx.call(f, params) else Err(TypeError("object is not callable"))
  }

  /** `str(plugin_class)`. */
  function ClassText(c: PyClass): string
  {
    ClassStr(if |c.mro| > 0 then c.mro[0].0 else c.name)
  }

  /** `next((x for x in descs if x['Name'] == info['Name']), None)`. */
  function FindByName(descs: seq<Value>, info: Value): (r: Result<Option<Value>>)
    ensures r.Ok? && r.value.Some? ==> r.value.value in descs && GetItem(r.value.value, "Name") == GetItem(info, "Name")
    ensures r == Ok(None) ==> forall i :: 0 <= i < |descs| ==> GetItem(descs[i], "Name") != GetItem(info, "Name")
    decreases |descs|
  {
    if descs == [] then Ok(None)
    else
      var n :- GetItem(descs[0], "Name");
      var m :- GetItem(info, "Name");
      if n == m then Ok(Some(descs[0]))
      else
        var r := FindByName(descs[1..], info);
        assert r == Ok(None) ==> forall i :: 0 <= i < |descs| ==> GetItem(descs[i], "Name") != GetItem(info, "Name") by {
          if r == Ok(None) {
            forall i | 0 <= i < |descs| ensures GetItem(descs[i], "Name") != GetItem(info, "Name") {
              if i > 0 { assert descs[1..][i - 1] == descs[i]; }
            }
          }
        }
        r
  }

  /** The descriptor found is the first one whose name matches, when every descriptor
      has a name. */
  lemma {:induction false} FindByNameFirst(descs: seq<Value>, info: Value, k: nat)
    requires GetItem(info, "Name").Ok? && k < |descs|
    requires forall i :: 0 <= i <= k ==> GetItem(descs[i], "Name").Ok?
    requires GetItem(descs[k], "Name") == GetItem(info, "Name")
    requires forall i :: 0 <= i < k ==> GetItem(descs[i], "Name") != GetItem(info, "Name")
    ensures FindByName(descs, info) == Ok(Some(descs[k]))
  {
    if k > 0 {
      assert GetItem(descs[0], "Name") != GetItem(info, "Name");
      forall i | 0 <= i <= k - 1 ensures GetItem(descs[1..][i], "Name").Ok? {
        assert descs[1..][i] == descs[i + 1];
      }
      forall i | 0 <= i < k - 1 ensures GetItem(descs[1..][i], "Name") != GetItem(info, "Name") {
        assert descs[1..][i] == descs[i + 1];
      }
      FindByNameFirst(descs[1..], info, k - 1);
    }
  }

  const PyFh := "csb_py_fh"
  const MFh := "csb_m_fh"

  /** `handle_callable_value_(value, info, params, plugin_class)`. */
  function HandleCallableValue(ctx: Ctx, value: Value, info: Value, params: Namespace, pluginClass: Option<PyClass>): (r: Result<Value>)
    ensures value != Null ==> r == Ok(value)
    ensures value == Null && GetItem(info, "DefaultValue").Err? ==> r == Err(GetItem(info, "DefaultValue").error)
    ensures value == Null && GetItem(info, "DefaultValue") == Ok(Str(PyFh)) && pluginClass.None? ==>
      r == Err(ValueError("Plugin class must be provided to handle 'csb_py_fh' default value."))
    ensures value == Null && GetItem(info, "DefaultValue") == Ok(Str(MFh)) ==> r == Ok(Str("csb_m_eval_default"))
    ensures value == Null && GetItem(info, "DefaultValue").Ok? && GetItem(info, "DefaultValue").value.Func? ==>
      r == ctx.call(GetItem(info, "DefaultValue").value, params)
    ensures (value == Null && GetItem(info, "DefaultValue").Ok? && GetItem(info, "DefaultValue").value != Str(PyFh) &&
             GetItem(info, "DefaultValue").value != Str(MFh) && !GetItem(info, "DefaultValue").value.Func?) ==> r == Ok(Null)
  {
    if value != Null then Ok(value)
    else
      var dv :- GetItem(info, "DefaultValue");
      if dv == Str(PyFh) then
        match pluginClass
        case None => Err(ValueError("Plugin class must be provided to handle 'csb_py_fh' default value."))
        case Some(pc) =>
          var descs :- (match ClassAttr(pc.mro, "param_description")
                        case Some(d) => Ok(d)
                        case None => Err(AttributeError("param_description")));
          var items :- Iterate(descs);
          var f :- FindByName(items, info);
          match f
          case None =>
            var n :- GetItem(info, "Name");
            Err(ValueError("Plugin class in '" + ClassText(pc) + "' does not define parameter '" + StrOf(n, ctx.repr) + "'."))
          case Some(d) =>
            var g :- GetItem(d, "DefaultValue");
            Call(ctx, g, params)
      else if dv == Str(MFh) then Ok(Str("csb_m_eval_default"))
      else if dv.Func? then ctx.call(dv, params)
      else Ok(Null)
  }

  /** With `csb_py_fh`, the default of the plugin class's first descriptor with the same
      name is called with the parameters evaluated so far. */
  lemma PyFhCallsClassDefault(ctx: Ctx, info: Value, params: Namespace, pc: PyClass, descs: seq<Value>, k: nat, g: Value)
    requires GetItem(info, "DefaultValue") == Ok(Str(PyFh)) && GetItem(info, "Name").Ok?
    requires ClassAttr(pc.mro, "param_description") == Some(List(descs))
    requires k < |descs| && forall i :: 0 <= i <= k ==> GetItem(descs[i], "Name").Ok?
    requires GetItem(descs[k], "Name") == GetItem(info, "Name")
    requires forall i :: 0 <= i < k ==> GetItem(descs[i], "Name") != GetItem(info, "Name")
    requires GetItem(descs[k], "DefaultValue") == Ok(g) && g.Func?
    ensures HandleCallableValue(ctx, Null, info, params, Some(pc)) == ctx.call(g, params)
  {
    FindByNameFirst(descs, info, k);
  }

  /** With `csb_py_fh` and no descriptor of that name on the class, a `ValueError` is
      raised. */
  lemma PyFhMissingDescriptor(ctx: Ctx, info: Value, params: Namespace, pc: PyClass, descs: seq<Value>)
    requires GetItem(info, "DefaultValue") == Ok(Str(PyFh)) && GetItem(info, "Name").Ok?
    requires ClassAttr(pc.mro, "param_description") == Some(List(descs))
    requires FindByName(descs, info) == Ok(None)
    ensures HandleCallableValue(ctx, Null, info, params, Some(pc)).Err?
    ensures HandleCallableValue(ctx, Null, info, params, Some(pc)).error.ValueError?
  {
  }

  /** What `getattr` finds on a module member: a class's attributes along its MRO; a
      plain value is treated as having none of the attributes asked for here. */
  function MemberAttr(m: Member, a: string): Option<Value>
  {
    match m
    case ClassMember(c) => ClassAttr(c.mro, a)
    case ValueMember(_) => None
  }

  /** `load_param_description_class_from_file_(file_path, plugin_name)`: the member named
      after the plugin, which must define `param_description`. */
  function LoadParamClassFromFile(ctx: Ctx, filePath: string, pluginName: string): (r: Result<PyClass>)
    ensures r.Ok? ==> ClassAttr(r.value.mro, "param_description").Some?
    ensures ImportModuleFromPath(ctx.fs, ctx.cwd, ctx.importer, filePath).Err? ==>
      r == Err(ImportModuleFromPath(ctx.fs, ctx.cwd, ctx.importer, filePath).error)
    ensures (ImportModuleFromPath(ctx.fs, ctx.cwd, ctx.importer, filePath).Ok? &&
             pluginName !in ImportModuleFromPath(ctx.fs, ctx.cwd, ctx.importer, filePath).value) ==>
      r == Err(ValueError("Plugin '" + pluginName + "' does not have a '" + pluginName + "' class."))
  {
    var m :- ImportModuleFromPath(ctx.fs, ctx.cwd, ctx.importer, filePath);
    if pluginName !in m then Err(ValueError("Plugin '" + pluginName + "' does not have a '" + pluginName + "' class."))
    else
      var member := m[pluginName];
      if member.ValueMember? || ClassAttr(member.cls.mro, "param_description").None? then
        Err(ValueError("Plugin class in '" + filePath + "' does not define 'param_description'."))
      else Ok(member.cls)
  }

  /** What evaluation gives: the class of a parameter file flagged `load_from_file__`,
      or the evaluated parameters. */
  datatype Evaluated = ParamsFile(cls: Member) | Params(ns: Namespace)

  /** The parameter class, the descriptions to evaluate and the plugin class, once the
      parameter file is loaded. */
  datatype Prepared = ShortCircuit(cls: Member) | Ready(paramsCls: Member, descs: Value, pluginClass: Option<PyClass>)

  /** Everything `eval_plugin_params_from_file` does before its loop. */
  function Prepare(ctx: Ctx, paramFile: string, paramDesc: Value, pluginClass: Option<PyClass>, pluginPath: Option<string>): (r: Result<Prepared>)
    ensures (ImportModuleFromPath(ctx.fs, ctx.cwd, ctx.importer, paramFile).Ok? &&
             "ComponentParams" !in ImportModuleFromPath(ctx.fs, ctx.cwd, ctx.importer, paramFile).value) ==>
      r == Err(ValueError("Plugin parameter file '" + paramFile + "' does not define 'ComponentParams' class."))
    ensures r.Ok? && r.value.Ready? ==> r.value.pluginClass.Some? || r.value.descs == paramDesc
  {
    var pm :- ImportModuleFromPath(ctx.fs, ctx.cwd, ctx.importer, paramFile);
    if "ComponentParams" !in pm then
      Err(ValueError("Plugin parameter file '" + paramFile + "' does not define 'ComponentParams' class."))
    else
      var pc := pm["ComponentParams"];
      var flag := MemberAttr(pc, "load_from_file__");
      if flag.Some? && Truthy(flag.value) then Ok(ShortCircuit(pc))
      else if pluginClass.Some? then Ok(Ready(pc, paramDesc, pluginClass))
      else match pluginPath
        case None => Err(ValueError("Either 'plugin_class' or 'plugin_path' must be provided."))
        case Some(path) =>
          if EndsWith(path, ".py") then
            var c :- LoadParamClassFromFile(ctx, path, Stem(path));
            Ok(Ready(pc, ClassAttr(c.mro, "param_description").value, Some(c)))
          else Ok(Ready(pc, paramDesc, None))
  }

  /** `if isinstance(param_desc, dict): param_desc = [param_desc]`. */
  function Wrap(d: Value): Value
  {
    if d.Dict? then List([d]) else d
  }

  /** One turn of the loop: the parameter is read from the parameter class, a `None`
      replaced by its default, and the result set under its name. */
  function EvalStep(ctx: Ctx, pc: Member, pluginClass: Option<PyClass>, info: Value, acc: Namespace): (r: Result<Namespace>)
    ensures r.Ok? ==>
      GetItem(info, "Name").Ok? && GetItem(info, "Name").value.Str? && MemberAttr(pc, GetItem(info, "Name").value.s).Some?
    ensures r.Ok? ==> r.value.Keys == acc.Keys + {GetItem(info, "Name").value.s}
    ensures r.Ok? ==> forall k :: k in acc && k != GetItem(info, "Name").value.s ==> r.value[k] == acc[k]
    ensures GetItem(info, "Name").Ok? && GetItem(info, "Name").value.Str? && MemberAttr(pc, GetItem(info, "Name").value.s).None? ==>
      r == Err(ValueError("Parameter '" + GetItem(info, "Name").value.s + "' not found in 'ComponentParams' class."))
  {
    var name :- GetItem(info, "Name");
    if !name.Str? then Err(TypeError("attribute name must be string"))
    else match MemberAttr(pc, name.s)
      case None => Err(ValueError("Parameter '" + name.s + "' not found in 'ComponentParams' class."))
      case Some(v) =>
        var value :- HandleCallableValue(ctx, v, info, acc, pluginClass);
        Ok(acc[name.s := value])
  }

  /** The loop over the remaining descriptions, from the parameters set so far. */
  function EvalFrom(ctx: Ctx, pc: Member, pluginClass: Option<PyClass>, infos: seq<Value>, acc: Namespace): Result<Namespace>
    decreases |infos|
  {
    if infos == [] then Ok(acc)
    else
      var acc' :- EvalStep(ctx, pc, pluginClass, infos[0], acc);
      EvalFrom(ctx, pc, pluginClass, infos[1..], acc')
  }

  /** `EvalFrom` of a suffix evaluates its first description, then the rest. */
  lemma EvalFromStep(ctx: Ctx, pc: Member, pluginClass: Option<PyClass>, infos: seq<Value>, i: nat, acc: Namespace,
                     s: Result<Namespace>)
    requires i < |infos| && EvalStep(ctx, pc, pluginClass, infos[i], acc) == s
    ensures s.Err? ==> EvalFrom(ctx, pc, pluginClass, infos[i..], acc) == Err(s.error)
    ensures s.Ok? ==> EvalFrom(ctx, pc, pluginClass, infos[i..], acc) == EvalFrom(ctx, pc, pluginClass, infos[i + 1..], s.value)
  {
    assert infos[i..][0] == infos[i] && infos[i..][1..] == infos[i + 1..];
  }

  /** Every described parameter must be defined by the parameter class, and each one
      evaluated ends up in the result. */
  lemma {:induction false} EvalFromAllDefined(ctx: Ctx, pc: Member, pluginClass: Option<PyClass>, infos: seq<Value>, acc: Namespace)
    requires EvalFrom(ctx, pc, pluginClass, infos, acc).Ok?
    ensures forall i :: 0 <= i < |infos| ==>
      GetItem(infos[i], "Name").Ok? && GetItem(infos[i], "Name").value.Str? &&
      MemberAttr(pc, GetItem(infos[i], "Name").value.s).Some? &&
      GetItem(infos[i], "Name").value.s in EvalFrom(ctx, pc, pluginClass, infos, acc).value
    ensures acc.Keys <= EvalFrom(ctx, pc, pluginClass, infos, acc).value.Keys
    decreases |infos|
  {
    if infos != [] {
      var acc' := EvalStep(ctx, pc, pluginClass, infos[0], acc).value;
      EvalFromAllDefined(ctx, pc, pluginClass, infos[1..], acc');
      forall i | 0 < i < |infos|
        ensures GetItem(infos[i], "Name").Ok? && GetItem(infos[i], "Name").value.Str? &&
          MemberAttr(pc, GetItem(infos[i], "Name").value.s).Some? &&
          GetItem(infos[i], "Name").value.s in EvalFrom(ctx, pc, pluginClass, infos, acc).value
      {
        assert infos[1..][i - 1] == infos[i];
      }
    }
  }

  /** Parameters are set in description order, so a callable default sees the
      parameters before it: for `a` then `b = None` with a callable default `g`, `g` is
      called with `a` already set. */
  lemma LaterSeesEarlier(ctx: Ctx, pc: Member, pluginClass: Option<PyClass>, i1: Value, i2: Value, v: Value, g: Value)
    requires GetItem(i1, "Name") == Ok(Str("a")) && MemberAttr(pc, "a") == Some(v) && v != Null
    requires GetItem(i2, "Name") == Ok(Str("b")) && MemberAttr(pc, "b") == Some(Null)
    requires GetItem(i2, "DefaultValue") == Ok(g) && g.Func?
    requires ctx.call(g, map["a" := v]).Ok?
    ensures EvalFrom(ctx, pc, pluginClass, [i1, i2], map[]) == Ok(map["a" := v, "b" := ctx.call(g, map["a" := v]).value])
  {
    var x := ctx.call(g, map["a" := v]).value;
    assert [i1, i2][1..] == [i2];
    assert EvalStep(ctx, pc, pluginClass, i1, map[]) == Ok(map["a" := v]);
    assert HandleCallableValue(ctx, Null, i2, map["a" := v], pluginClass) == Ok(x);
    assert EvalStep(ctx, pc, pluginClass, i2, map["a" := v]) == Ok(map["a" := v, "b" := x]);
    assert [i2][1..] == [];
    assert EvalFrom(ctx, pc, pluginClass, [i2], map["a" := v]) == Ok(map["a" := v, "b" := x]);
  }

  /** `eval_plugin_params_from_file(param_file, param_desc, plugin_class, plugin_path)`,
      as a function of its inputs. */
  function EvalPluginParamsFromFileSpec(ctx: Ctx, paramFile: string, paramDesc: Value, pluginClass: Option<PyClass>, pluginPath: Option<string>): Result<Evaluated>
  {
    var p :- Prepare(ctx, paramFile, paramDesc, pluginClass, pluginPath);
    match p
    case ShortCircuit(c) => Ok(ParamsFile(c))
    case Ready(pc, d, plc) =>
      var infos :- Iterate(Wrap(d));
      var ns :- EvalFrom(ctx, pc, plc, infos, map[]);
      Ok(Params(ns))
  }

  /** `eval_plugin_params_from_file(...)`: the loop sets the parameters one by one. */
  method EvalPluginParamsFromFile(ctx: Ctx, paramFile: string, paramDesc: Value, pluginClass: Option<PyClass>, pluginPath: Option<string>)
    returns (r: Result<Evaluated>)
    ensures r == EvalPluginParamsFromFileSpec(ctx, paramFile, paramDesc, pluginClass, pluginPath)
  {
    var p := Prepare(ctx, paramFile, paramDesc, pluginClass, pluginPath);
    if p.Err? {
      return Err(p.error);
    }
    if p.value.ShortCircuit? {
      return Ok(ParamsFile(p.value.cls));
    }
    var pc := p.value.paramsCls;
    var plc := p.value.pluginClass;
    var infos := Iterate(Wrap(p.value.descs));
    if infos.Err? {
      return Err(infos.error);
    }
    var ns := EvalEach(ctx, pc, plc, infos.value);
    if ns.Err? {
      return Err(ns.error);
    }
    r := Ok(Params(ns.value));
  }

  /** The loop of `eval_plugin_params_from_file`: `params[name] = value` for each
      description in turn. */
  method EvalEach(ctx: Ctx, pc: Member, plc: Option<PyClass>, items: seq<Value>) returns (r: Result<Namespace>)
    ensures r == EvalFrom(ctx, pc, plc, items, map[])
  {
    var result: Namespace := map[];
    var i := 0;
    while i < |items|
      invariant 0 <= i <= |items|
      invariant EvalFrom(ctx, pc, plc, items[i..], result) == EvalFrom(ctx, pc, plc, items, map[])
    {
      var s := EvalStep(ctx, pc, plc, items[i], result);
      EvalFromStep(ctx, pc, plc, items, i, result, s);
      if s.Err? {
        return Err(s.error);
      }
      result := s.value;
      i := i + 1;
    }
    r := Ok(result);
  }

  /** A parameter class flagged `load_from_file__` yields only itself, whatever the
      descriptions and the plugin say. */
  lemma FlaggedShortCircuits(ctx: Ctx, paramFile: string, d1: Value, d2: Value, pc1: Option<PyClass>, pc2: Option<PyClass>,
                             pp1: Option<string>, pp2: Option<string>, m: Module)
    requires ImportModuleFromPath(ctx.fs, ctx.cwd, ctx.importer, paramFile) == Ok(m) && "ComponentParams" in m
    requires MemberAttr(m["ComponentParams"], "load_from_file__") == Some(Bool(true))
    ensures EvalPluginParamsFromFileSpec(ctx, paramFile, d1, pc1, pp1) == Ok(ParamsFile(m["ComponentParams"]))
    ensures EvalPluginParamsFromFileSpec(ctx, paramFile, d1, pc1, pp1) == EvalPluginParamsFromFileSpec(ctx, paramFile, d2, pc2, pp2)
  {
  }

  /** A single dict description is evaluated as the list holding it. */
  lemma DictDescriptionWrapped(ctx: Ctx, paramFile: string, d: Value, pluginClass: Option<PyClass>, pluginPath: Option<string>)
    requires d.Dict?
    ensures EvalPluginParamsFromFileSpec(ctx, paramFile, d, pluginClass, pluginPath) ==
      EvalPluginParamsFromFileSpec(ctx, paramFile, List([d]), pluginClass, pluginPath)
  {
    PrepareWrapped(ctx, paramFile, d, pluginClass, pluginPath);
  }

  /** The preparation does not look at the descriptions it is given, so a dict and
      the list holding it prepare alike up to that wrapping. */
  lemma PrepareWrapped(ctx: Ctx, paramFile: string, d: Value, pluginClass: Option<PyClass>, pluginPath: Option<string>)
    requires d.Dict?
    ensures var p1 := Prepare(ctx, paramFile, d, pluginClass, pluginPath);
      var p2 := Prepare(ctx, paramFile, List([d]), pluginClass, pluginPath);
      p1.Ok? == p2.Ok? && (p1.Err? ==> p1 == p2) &&
      (p1.Ok? ==> p1.value.Ready? == p2.value.Ready? && (p1.value.ShortCircuit? ==> p1 == p2))
    ensures var p1 := Prepare(ctx, paramFile, d, pluginClass, pluginPath);
      var p2 := Prepare(ctx, paramFile, List([d]), pluginClass, pluginPath);
      p1.Ok? && p1.value.Ready? ==>
        p2.value.paramsCls == p1.value.paramsCls && p2.value.pluginClass == p1.value.pluginClass &&
        Wrap(p1.value.descs) == Wrap(p2.value.descs)
  {
  }

  /** Without a plugin class, a `.py` plugin path replaces the descriptions given with
      the plugin class's own. */
  lemma PyPathOverridesDescriptions(ctx: Ctx, paramFile: string, d1: Value, d2: Value, path: string)
    requires EndsWith(path, ".py")
    ensures EvalPluginParamsFromFileSpec(ctx, paramFile, d1, None, Some(path)) ==
      EvalPluginParamsFromFileSpec(ctx, paramFile, d2, None, Some(path))
  {
  }

  /** Without a plugin class or a plugin path, a parameter file that gets as far as the
      descriptions raises. */
  lemma NeitherClassNorPath(ctx: Ctx, paramFile: string, d: Value, m: Module)
    requires ImportModuleFromPath(ctx.fs, ctx.cwd, ctx.importer, paramFile) == Ok(m) && "ComponentParams" in m
    requires MemberAttr(m["ComponentParams"], "load_from_file__").None?
    ensures EvalPluginParamsFromFileSpec(ctx, paramFile, d, None, None) ==
      Err(ValueError("Either 'plugin_class' or 'plugin_path' must be provided."))
  {
  }

  /** The oracles `eval_plugin_params_` reaches beyond this file: the component's
      parameter-file path relative to the environment, and the library backend's
      `get_plugin_info(lib_name, plugin_name)`. */
  datatype Backend = Backend(paramPath: Value -> Result<string>, pluginInfo: (Value, Value) -> Result<Value>)

  /** The plugin class `load_param_description_class_from_library_` gives for a
      component. */
  function LibraryClass(ctx: Ctx, b: Backend, component: Value): (r: Result<PyClass>)
    ensures r.Ok? ==> ClassAttr(r.value.mro, "param_description").Some?
  {
    var name :- GetItem(component, "PluginName");
    var lib :- GetItem(component, "Lib");
    var info :- b.pluginInfo(lib, name);
    var cp :- GetItem(info, "ComponentPath");
    var n :- GetItem(info, "Name");
    var cps :- AsString(cp);
    var ns :- AsString(n);
    LoadParamClassFromFile(ctx, cps, ns)
  }

  /** `eval_plugin_params_(env_path, component)`, as a function of its inputs: `None`
      when the component has no parameter file. */
  function EvalComponentSpec(ctx: Ctx, b: Backend, envPath: string, component: Value): (r: Result<Option<Evaluated>>)
    ensures b.paramPath(component).Ok? && Resolve(ctx.cwd, JoinText(envPath, b.paramPath(component).value)) !in ctx.fs ==>
      r == Ok(None)
  {
    var rel :- b.paramPath(component);
    var path := JoinText(envPath, rel);
    if Resolve(ctx.cwd, path) !in ctx.fs then Ok(None)
    else
      var c :- LibraryClass(ctx, b, component);
      var e :- EvalPluginParamsFromFileSpec(ctx, path, ClassAttr(c.mro, "param_description").value, Some(c), None);
      Ok(Some(e))
  }

  /** `eval_plugin_params_(env_path, component)`. */
  method EvalComponent(ctx: Ctx, b: Backend, envPath: string, component: Value) returns (r: Result<Option<Evaluated>>)
    ensures r == EvalComponentSpec(ctx, b, envPath, component)
  {
    var rel := b.paramPath(component);
    if rel.Err? {
      return Err(rel.error);
    }
    var path := JoinText(envPath, rel.value);
    if Resolve(ctx.cwd, path) !in ctx.fs {
      return Ok(None);
    }
    var c := LibraryClass(ctx, b, component);
    if c.Err? {
      return Err(c.error);
    }
    var e := EvalPluginParamsFromFile(ctx, path, ClassAttr(c.value.mro, "param_description").value, Some(c.value), None);
    if e.Err? {
      return Err(e.error);
    }
    r := Ok(Some(e.value));
  }

  /** Components whose parameters are not evaluated here. */
  predicate Unsupported(impl: Value)
  {
    impl == Str("slx") || impl == Str("mat")
  }

  /** A component the walk skips. */
  predicate Skipped(comp: Value)
  {
    comp.Dict? && Unsupported(GetOr(comp, "PluginImplementation", Null).value)
  }

  /** Some evaluated component of the walk has the `Id` `k`. */
  predicate EvaluatedWithId(comps: seq<Value>, k: Value)
  {
    exists i :: 0 <= i < |comps| && GetItem(comps[i], "Id") == Ok(k) && !Skipped(comps[i])
  }

  /** One component of the walk: skipped with a warning (which reads its `Id`) when it is
      a Simulink or MATLAB component, else evaluated and stored under its `Id`. The
      value is evaluated before the key is read, as in any Python assignment. */
  function EnvStep(ctx: Ctx, b: Backend, envPath: string, comp: Value, acc: map<Value, Option<Evaluated>>): (r: Result<map<Value, Option<Evaluated>>>)
    ensures r.Ok? ==> GetItem(comp, "Id").Ok?
    ensures r.Ok? && Unsupported(GetOr(comp, "PluginImplementation", Null).value) ==> r.value == acc
    ensures r.Ok? && !Unsupported(GetOr(comp, "PluginImplementation", Null).value) ==>
      EvalComponentSpec(ctx, b, envPath, comp).Ok? &&
      r.value == acc[GetItem(comp, "Id").value := EvalComponentSpec(ctx, b, envPath, comp).value]
  {
    var impl :- GetOr(comp, "PluginImplementation", Null);
    if Unsupported(impl) then
      var id :- GetItem(comp, "Id");
      Ok(acc)
    else
      var v :- EvalComponentSpec(ctx, b, envPath, comp);
      var id :- GetItem(comp, "Id");
      if !Hashable(id) then Err(TypeError("unhashable type"))
      else Ok(acc[id := v])
  }

  /** The loop over the remaining components. */
  function EnvFrom(ctx: Ctx, b: Backend, envPath: string, comps: seq<Value>, acc: map<Value, Option<Evaluated>>): Result<map<Value, Option<Evaluated>>>
    decreases |comps|
  {
    if comps == [] then Ok(acc)
    else
      var acc' :- EnvStep(ctx, b, envPath, comps[0], acc);
      EnvFrom(ctx, b, envPath, comps[1..], acc')
  }

  /** `eval_environment_params(env_path, env_info)`, as a function of its inputs: the
      components and subcomponents in the order the walk yields them; a walk that
      raises after its last component makes the whole call raise. */
  function EvalEnvironmentParamsSpec(ctx: Ctx, b: Backend, envPath: string, envInfo: Namespace): Result<map<Value, Option<Evaluated>>>
  {
    var s := WithSubcomponents(envInfo);
    var ret :- EnvFrom(ctx, b, envPath, s.items, map[]);
    match s.stop
    case Fail(e) => Err(e)
    case Pass => Ok(ret)
  }

  /** `eval_environment_params(env_path, env_info)`. */
  method EvalEnvironmentParams(ctx: Ctx, b: Backend, envPath: string, envInfo: Namespace) returns (r: Result<map<Value, Option<Evaluated>>>)
    ensures r == EvalEnvironmentParamsSpec(ctx, b, envPath, envInfo)
  {
    var s := WithSubcomponents(envInfo);
    var ret: map<Value, Option<Evaluated>> := map[];
    var i := 0;
    while i < |s.items|
      invariant 0 <= i <= |s.items|
      invariant EnvFrom(ctx, b, envPath, s.items[i..], ret) == EnvFrom(ctx, b, envPath, s.items, map[])
    {
      assert s.items[i..][0] == s.items[i] && s.items[i..][1..] == s.items[i + 1..];
      var st := EvalEntry(ctx, b, envPath, s.items[i], ret);
      if st.Err? {
        return Err(st.error);
      }
      ret := st.value;
      i := i + 1;
    }
    if s.stop.Fail? {
      return Err(s.stop.error);
    }
    r := Ok(ret);
  }

  /** One component of `eval_environment_params`: an unsupported implementation is
      skipped once its `Id` is read, any other component is evaluated under its `Id`. */
  method EvalEntry(ctx: Ctx, b: Backend, envPath: string, comp: Value, acc: map<Value, Option<Evaluated>>)
    returns (r: Result<map<Value, Option<Evaluated>>>)
    ensures r == EnvStep(ctx, b, envPath, comp, acc)
  {
    var impl := GetOr(comp, "PluginImplementation", Null);
    if impl.Err? {
      return Err(impl.error);
    }
    if Unsupported(impl.value) {
      var id := GetItem(comp, "Id");
      if id.Err? {
        return Err(id.error);
      }
      return Ok(acc);
    }
    var v := EvalComponent(ctx, b, envPath, comp);
    if v.Err? {
      return Err(v.error);
    }
    var id := GetItem(comp, "Id");
    if id.Err? {
      return Err(id.error);
    }
    if !Hashable(id.value) {
      return Err(TypeError("unhashable type"));
    }
    r := Ok(acc[id.value := v.value]);
  }

  /** Every evaluated component's `Id` is a key of the result, with that component's
      parameters, unless a later component with the same `Id` overwrote it; skipped
      components add nothing. */
  lemma EnvFromKeys(ctx: Ctx, b: Backend, envPath: string, comps: seq<Value>, acc: map<Value, Option<Evaluated>>)
    requires EnvFrom(ctx, b, envPath, comps, acc).Ok?
    ensures var m := EnvFrom(ctx, b, envPath, comps, acc).value;
      forall i :: 0 <= i < |comps| && !Skipped(comps[i]) ==>
        GetItem(comps[i], "Id").Ok? && GetItem(comps[i], "Id").value in m
    ensures var m := EnvFrom(ctx, b, envPath, comps, acc).value;
      forall k :: k in m ==> k in acc || EvaluatedWithId(comps, k)
  {
    EnvFromHasIds(ctx, b, envPath, comps, acc);
    EnvFromKeysFrom(ctx, b, envPath, comps, acc);
  }

  /** Every evaluated component's `Id` is a key of the result. */
  lemma {:induction false} EnvFromHasIds(ctx: Ctx, b: Backend, envPath: string, comps: seq<Value>, acc: map<Value, Option<Evaluated>>)
    requires EnvFrom(ctx, b, envPath, comps, acc).Ok?
    ensures var m := EnvFrom(ctx, b, envPath, comps, acc).value;
      forall i :: 0 <= i < |comps| && !Skipped(comps[i]) ==>
        GetItem(comps[i], "Id").Ok? && GetItem(comps[i], "Id").value in m
    decreases |comps|
  {
    if comps != [] {
      var acc' := EnvStep(ctx, b, envPath, comps[0], acc).value;
      EnvFromHasIds(ctx, b, envPath, comps[1..], acc');
      var m := EnvFrom(ctx, b, envPath, comps, acc).value;
      assert acc'.Keys <= m.Keys by {
        EnvFromKeepsKeys(ctx, b, envPath, comps[1..], acc');
      }
      forall i | 0 < i < |comps| && !Skipped(comps[i])
        ensures GetItem(comps[i], "Id").Ok? && GetItem(comps[i], "Id").value in m
      {
        assert comps[1..][i - 1] == comps[i];
      }
    }
  }

  /** Every key of the result was there before or is the `Id` of an evaluated component. */
  lemma {:induction false} EnvFromKeysFrom(ctx: Ctx, b: Backend, envPath: string, comps: seq<Value>, acc: map<Value, Option<Evaluated>>)
    requires EnvFrom(ctx, b, envPath, comps, acc).Ok?
    ensures var m := EnvFrom(ctx, b, envPath, comps, acc).value;
      forall k :: k in m ==> k in acc || EvaluatedWithId(comps, k)
    decreases |comps|
  {
    if comps != [] {
      var acc' := EnvStep(ctx, b, envPath, comps[0], acc).value;
      EnvFromKeysFrom(ctx, b, envPath, comps[1..], acc');
      var m := EnvFrom(ctx, b, envPath, comps, acc).value;
      forall k | k in m ensures k in acc || EvaluatedWithId(comps, k)
      {
        if k !in acc' {
          var i :| 0 <= i < |comps[1..]| && GetItem(comps[1..][i], "Id") == Ok(k) && !Skipped(comps[1..][i]);
          assert comps[i + 1] == comps[1..][i];
        } else if k !in acc {
          assert GetItem(comps[0], "Id") == Ok(k);
        }
      }
    }
  }

  /** The loop never removes a key. */
  lemma {:induction false} EnvFromKeepsKeys(ctx: Ctx, b: Backend, envPath: string, comps: seq<Value>, acc: map<Value, Option<Evaluated>>)
    requires EnvFrom(ctx, b, envPath, comps, acc).Ok?
    ensures acc.Keys <= EnvFrom(ctx, b, envPath, comps, acc).value.Keys
    decreases |comps|
  {
    if comps != [] {
      EnvFromKeepsKeys(ctx, b, envPath, comps[1..], EnvStep(ctx, b, envPath, comps[0], acc).value);
    }
  }

  /** A component without a parameter file is mapped to `None`. */
  lemma NoParamFileIsNone(ctx: Ctx, b: Backend, envPath: string, comp: Value, id: Value)
    requires comp.Dict? && !HasKey(comp.entries, "PluginImplementation") && GetItem(comp, "Id") == Ok(id) && Hashable(id)
    requires b.paramPath(comp).Ok? && Resolve(ctx.cwd, JoinText(envPath, b.paramPath(comp).value)) !in ctx.fs
    ensures EnvFrom(ctx, b, envPath, [comp], map[]) == Ok(map[id := None])
  {
  }
}

/** Classifying plugin classes and loading them from files (`plugin_helpers.py`).
    Importing a file is an oracle: it is given the module name and the path and returns
    the module's members, or nothing when Python finds no loader for the file. */
module PluginHelpers {
  import opened Wrappers
  import opened Values
  import opened FileSystem
  import opened PyPaths

  /** A class as the code inspects it: its `__name__` and its method resolution order,
      each entry a class's qualified name (`module.Name`) with the attributes that class
      defines itself. The first entry is the class itself. */
  datatype PyClass = PyClass(name: string, mro: seq<(string, Namespace)>)

  /** A member of an imported module. */
  datatype Member = ClassMember(cls: PyClass) | ValueMember(v: Value)

  type Module = map<string, Member>

  /** Loading a module: `None` when no spec is found for the file, else what executing
      it gives. */
  type Importer = (string, string) -> Option<Result<Module>>

  const PluginBaseName := "csbenchlab.plugin.PluginBase.PluginBase"
  const DynSystemName := "csbenchlab.plugin.DynSystem.DynSystem"
  const ControllerName := "csbenchlab.plugin.Controller.Controller"
  const EstimatorName := "csbenchlab.plugin.Estimator.Estimator"
  const DisturbanceName := "csbenchlab.plugin.DisturbanceGenerator.DisturbanceGenerator"

  /** `str(cls)`. */
  function ClassStr(qualName: string): string
  {
    "<class '" + qualName + "'>"
  }

  lemma ClassStrInjective(a: string, b: string)
    requires ClassStr(a) == ClassStr(b)
    ensures a == b
  {
    assert a == ClassStr(a)[8..|ClassStr(a)| - 2];
    assert b == ClassStr(b)[8..|ClassStr(b)| - 2];
  }

  /** `getattr(cls, a)`: the first class on the MRO that defines `a`. */
  function ClassAttr(mro: seq<(string, Namespace)>, a: string): (r: Option<Value>)
    ensures r.Some? <==> exists i :: 0 <= i < |mro| && a in mro[i].1
    decreases |mro|
  {
    if mro == [] then None
    else if a in mro[0].1 then Some(mro[0].1[a])
    else
      var r := ClassAttr(mro[1..], a);
      assert r.Some? <==> exists i :: 1 <= i < |mro| && a in mro[i].1 by {
        if r.Some? {
          var i :| 0 <= i < |mro[1..]| && a in mro[1..][i].1;
          assert a in mro[i + 1].1;
        }
      }
      r
  }

  /** `[base for base in cls.__mro__ if str(base) == s]`. */
  function MatchingBases(mro: seq<(string, Namespace)>, s: string): (r: seq<string>)
    ensures r != [] <==> exists i :: 0 <= i < |mro| && ClassStr(mro[i].0) == s
    decreases |mro|
  {
    if mro == [] then []
    else
      var rest := MatchingBases(mro[1..], s);
      assert rest != [] <==> exists i :: 1 <= i < |mro| && ClassStr(mro[i].0) == s by {
        if rest != [] {
          var i :| 0 <= i < |mro[1..]| && ClassStr(mro[1..][i].0) == s;
          assert mro[1..][i] == mro[i + 1];
        }
        if exists i :: 1 <= i < |mro| && ClassStr(mro[i].0) == s {
          var i :| 1 <= i < |mro| && ClassStr(mro[i].0) == s;
          assert mro[1..][i - 1] == mro[i];
        }
      }
      if ClassStr(mro[0].0) == s then [mro[0].0] + rest else rest
  }

  /** `any([...])` over classes: a class object is always truthy, so this holds when
      some base matches. */
  predicate AnyBase(c: PyClass, qualName: string)
  {
    MatchingBases(c.mro, ClassStr(qualName)) != []
  }

  /** The class has the class `qualName` among its ancestors, compared by the full
      qualified name. */
  predicate Derives(c: PyClass, qualName: string)
  {
    exists i :: 0 <= i < |c.mro| && c.mro[i].0 == qualName
  }

  lemma AnyBaseDerives(c: PyClass, qualName: string)
    ensures AnyBase(c, qualName) <==> Derives(c, qualName)
  {
    if AnyBase(c, qualName) {
      var i :| 0 <= i < |c.mro| && ClassStr(c.mro[i].0) == ClassStr(qualName);
      ClassStrInjective(c.mro[i].0, qualName);
    }
  }

  /** `parse_plugin_type(plugin_class)`. */
  function ParsePluginType(c: PyClass): string
  {
    if AnyBase(c, DynSystemName) then "sys"
    else if AnyBase(c, ControllerName) then "ctl"
    else if AnyBase(c, EstimatorName) then "est"
    else if AnyBase(c, DisturbanceName) then "dist"
    else ""
  }

  /** The classification by priority: system over controller over estimator over
      disturbance generator, and `''` when none of the four is an ancestor. */
  lemma ParsePluginTypeSpec(c: PyClass)
    ensures ParsePluginType(c) == "sys" <==> Derives(c, DynSystemName)
    ensures ParsePluginType(c) == "ctl" <==> !Derives(c, DynSystemName) && Derives(c, ControllerName)
    ensures ParsePluginType(c) == "est" <==>
      !Derives(c, DynSystemName) && !Derives(c, ControllerName) && Derives(c, EstimatorName)
    ensures ParsePluginType(c) == "dist" <==>
      !Derives(c, DynSystemName) && !Derives(c, ControllerName) && !Derives(c, EstimatorName) && Derives(c, DisturbanceName)
    ensures ParsePluginType(c) == "" <==>
      !Derives(c, DynSystemName) && !Derives(c, ControllerName) && !Derives(c, EstimatorName) && !Derives(c, DisturbanceName)
  {
    AnyBaseDerives(c, DynSystemName);
    AnyBaseDerives(c, ControllerName);
    AnyBaseDerives(c, EstimatorName);
    AnyBaseDerives(c, DisturbanceName);
  }

  /** A class named `DynSystem` from another module is not a system: the comparison is
      on the qualified name. */
  lemma SameNameOtherModule(own: Namespace)
    ensures ParsePluginType(PyClass("Plant", [("Plant", own), ("mylib.DynSystem", map[])])) == ""
  {
    var c := PyClass("Plant", [("Plant", own), ("mylib.DynSystem", map[])]);
    ParsePluginTypeSpec(c);
    assert !Derives(c, DynSystemName) by {
      assert c.mro[0].0 != DynSystemName && c.mro[1].0 != DynSystemName;
    }
    assert c.mro[0].0 != ControllerName && c.mro[1].0 != ControllerName;
    assert c.mro[0].0 != EstimatorName && c.mro[1].0 != EstimatorName;
    assert c.mro[0].0 != DisturbanceName && c.mro[1].0 != DisturbanceName;
  }

  /** `os.path.splitext(os.path.basename(path))[0]`. */
  function ModuleName(path: string): string
  {
    SplitextRoot(Basename(path))
  }

  /** The module name of `<dir>/<base>.py` is `<base>`. */
  lemma ModuleNameOfPy(dir: string, base: string)
    requires '/' !in base && base != "" && base[0] != '.'
    ensures ModuleName(dir + "/" + (base + ".py")) == base
  {
    var n := base + ".py";
    SplitConcat(dir, n);
    assert '/' !in n by {
      forall k | 0 <= k < |n| ensures n[k] != '/' {
        if k < |base| { assert n[k] == base[k]; }
      }
    }
    SplitPlain(n);
    assert Basename(dir + "/" + n) == n;
    assert n[|base|] == '.' && n[|base| + 1] == 'p' && n[|base| + 2] == 'y';
    assert LastIndex(n, '.') == |base|;
    assert n[0] != '.';
    assert n[..|base|] == base;
  }

  /** `import_module_from_path(module_path)`: a missing path and a file without a loader
      raise `ValueError`; otherwise the module is executed. */
  function ImportModuleFromPath(fs: FS, cwd: Path, importer: Importer, path: string): (r: Result<Module>)
    ensures Resolve(cwd, path) !in fs ==> r == Err(ValueError("Module path '" + path + "' does not exist."))
    ensures Resolve(cwd, path) in fs && importer(ModuleName(path), path).None? ==>
      r == Err(ValueError("Could not find module '" + ModuleName(path) + "' at path '" + path + "'."))
    ensures Resolve(cwd, path) in fs && importer(ModuleName(path), path).Some? ==>
      r == importer(ModuleName(path), path).value
  {
    if Resolve(cwd, path) !in fs then Err(ValueError("Module path '" + path + "' does not exist."))
    else
      var name := ModuleName(path);
      match importer(name, path)
      case None => Err(ValueError("Could not find module '" + name + "' at path '" + path + "'."))
      case Some(m) => m
  }

  /** `get_plugin_class(plugin_path)`: the module member named after the file. */
  function GetPluginClass(fs: FS, cwd: Path, importer: Importer, path: string): (r: Result<Member>)
    ensures Resolve(cwd, path) !in fs ==> r == Err(ValueError("Plugin path '" + path + "' does not exist."))
    ensures r.Ok? ==>
      (ImportModuleFromPath(fs, cwd, importer, path).Ok? &&
       ModuleName(path) in ImportModuleFromPath(fs, cwd, importer, path).value &&
       r.value == ImportModuleFromPath(fs, cwd, importer, path).value[ModuleName(path)])
    ensures ImportModuleFromPath(fs, cwd, importer, path).Ok? && ModuleName(path) !in ImportModuleFromPath(fs, cwd, importer, path).value ==>
      r == Err(ValueError("Plugin '" + ModuleName(path) + "' does not have a 'Plugin' class."))
  {
    if Resolve(cwd, path) !in fs then Err(ValueError("Plugin path '" + path + "' does not exist."))
    else
      var name := ModuleName(path);
      var m :- ImportModuleFromPath(fs, cwd, importer, path);
      if name !in m then Err(ValueError("Plugin '" + name + "' does not have a 'Plugin' class."))
      else Ok(m[name])
  }

  /** A plugin file `<dir>/<Name>.py` yields the member `Name` of the module loaded
      under the name `Name`. */
  lemma GetPluginClassOfPy(fs: FS, cwd: Path, importer: Importer, dir: string, base: string, m: Module)
    requires '/' !in base && base != "" && base[0] != '.'
    requires Resolve(cwd, dir + "/" + (base + ".py")) in fs
    requires importer(base, dir + "/" + (base + ".py")) == Some(Ok(m)) && base in m
    ensures GetPluginClass(fs, cwd, importer, dir + "/" + (base + ".py")) == Ok(m[base])
  {
    ModuleNameOfPy(dir, base);
  }
}

/** The environment helpers of the Python backend (`csbenchlab/backend/environment_helpers.py`):
    selecting the system and controllers of a loaded environment before its parameters
    are evaluated, creating a new environment on disk, recognising one, and writing the
    script that evaluates it. Loading the environment, the parameter evaluation's
    oracles and the script template are parameters. */
module EnvironmentHelpers {
  import opened Wrappers
  import opened Strings
  import opened Values
  import opened FileSystem
  import opened PyPaths
  import EnvironmentUtils
  import EP = EvalParameters

  /** Python's `x in container`: list membership, a key test on a dict and a
      substring test on a string. */
  function InValue(x: Value, container: Value): (r: Result<bool>)
    ensures container.List? ==> r == Ok(x in container.items)
    ensures container.Str? && x.Str? ==> r == Ok(Contains(container.s, x.s))
    ensures container.Str? && !x.Str? ==> r.Err?
    ensures container.Dict? && x.Str? ==> r == Ok(HasKey(container.entries, x.s))
  {
    match container
    case List(items) => Ok(x in items)
    case NdArray(items) => Ok(x in items)
    case Dict(e) =>
      if x.Str? then Ok(HasKey(e, x.s))
      else if x.List? || x.Dict? || x.NdArray? then Err(TypeError("unhashable type"))
      else Ok(false)
    case Str(s) => if x.Str? then Ok(Contains(s, x.s)) else Err(TypeError("'in <string>' requires string as left operand"))
    case _ => Err(TypeError("argument is not iterable"))
  }

  /** `a` is `b` with some elements left out, in the same order. */
  predicate Subseq(a: seq<Value>, b: seq<Value>)
    decreases |b|
  {
    if a == [] then true
    else if b == [] then false
    else (a[0] == b[0] && Subseq(a[1..], b[1..])) || Subseq(a, b[1..])
  }

  /** `next((s for s in systems if s["Id"] == id), None)`. */
  function FindById(items: seq<Value>, id: Value): (r: Result<Option<Value>>)
    ensures r.Ok? && r.value.Some? ==> r.value.value in items && GetItem(r.value.value, "Id") == Ok(id)
    ensures r == Ok(None) ==> forall s :: s in items ==> GetItem(s, "Id").Ok? && GetItem(s, "Id") != Ok(id)
    decreases |items|
  {
    if items == [] then Ok(None)
    else
      var sid :- GetItem(items[0], "Id");
      if sid == id then Ok(Some(items[0]))
      else
        assert forall s :: s in items ==> s == items[0] || s in items[1..];
        FindById(items[1..], id)
  }

  /** The system found is the first one with that `Id`, when every system before it has
      one. */
  lemma {:induction false} FindByIdFirst(items: seq<Value>, id: Value, k: nat)
    requires k < |items| && GetItem(items[k], "Id") == Ok(id)
    requires forall i :: 0 <= i < k ==> GetItem(items[i], "Id").Ok? && GetItem(items[i], "Id") != Ok(id)
    ensures FindById(items, id) == Ok(Some(items[k]))
  {
    if k > 0 {
      assert GetItem(items[0], "Id").Ok? && GetItem(items[0], "Id") != Ok(id);
      forall i | 0 <= i < k - 1 ensures GetItem(items[1..][i], "Id").Ok? && GetItem(items[1..][i], "Id") != Ok(id) {
        assert items[1..][i] == items[i + 1];
      }
      FindByIdFirst(items[1..], id, k - 1);
    }
  }

  const MultipleSystems := "Multiple system instances found. Please specify one to use."

  function SystemNotFound(id: string): string
  {
    "System instance '" + id + "' not found in environment."
  }

  /** A system instance was asked for: `system_instance is not None and system_instance != ''`. */
  predicate Given(si: Option<string>)
  {
    si.Some? && si.value != ""
  }

  /** The systems kept: only the one asked for, which must exist; with none asked for,
      all of them, of which there may be at most one. */
  function SelectSystems(systems: Value, si: Option<string>): (r: Result<Value>)
    ensures Given(si) && r.Ok? ==>
      Iterate(systems).Ok? && exists s :: s in Iterate(systems).value && GetItem(s, "Id") == Ok(Str(si.value)) && r.value == List([s])
    ensures Given(si) && Iterate(systems).Ok? && FindById(Iterate(systems).value, Str(si.value)) == Ok(None) ==>
      r == Err(ValueError(SystemNotFound(si.value)))
    ensures !Given(si) ==> (r.Ok? <==> Iterate(systems).Ok? && |Iterate(systems).value| <= 1)
    ensures !Given(si) && r.Ok? ==> r.value == systems
    ensures !Given(si) && Iterate(systems).Ok? && |Iterate(systems).value| > 1 ==> r == Err(ValueError(MultipleSystems))
  {
    var items :- Iterate(systems);
    if Given(si) then
      var s :- FindById(items, Str(si.value));
      match s
      case None => Err(ValueError(SystemNotFound(si.value)))
      case Some(sys) => Ok(List([sys]))
    else if |items| > 1 then Err(ValueError(MultipleSystems))
    else Ok(systems)
  }

  /** `[c["Id"] for c in controllers]`. */
  function Ids(items: seq<Value>): (r: Result<seq<Value>>)
    ensures r.Ok? <==> forall c :: c in items ==> GetItem(c, "Id").Ok?
    ensures r.Ok? ==> forall c :: c in items ==> GetItem(c, "Id").value in r.value
    decreases |items|
  {
    if items == [] then Ok([])
    else
      assert forall c :: c in items ==> c == items[0] || c in items[1..];
      var id :- GetItem(items[0], "Id");
      var rest :- Ids(items[1..]);
      Ok([id] + rest)
  }

  /** The controller's `Id` can be looked up and tested against `ids`. */
  predicate Checkable(c: Value, ids: Value)
  {
    GetItem(c, "Id").Ok? && InValue(GetItem(c, "Id").value, ids).Ok?
  }

  /** `c["Id"] in ids`. */
  predicate Listed(c: Value, ids: Value)
  {
    GetItem(c, "Id").Ok? && InValue(GetItem(c, "Id").value, ids) == Ok(true)
  }

  /** `[c for c in controllers if c["Id"] in ids]`. */
  function KeepListed(items: seq<Value>, ids: Value): (r: Result<seq<Value>>)
    ensures r.Ok? <==> forall c :: c in items ==> Checkable(c, ids)
    ensures r.Ok? ==> Subseq(r.value, items)
    ensures r.Ok? ==> forall c :: c in r.value <==> c in items && Listed(c, ids)
    decreases |items|
  {
    if items == [] then Ok([])
    else
      assert forall c :: c in items <==> c == items[0] || c in items[1..];
      assert items[0] in items;
      var id :- GetItem(items[0], "Id");
      var b :- InValue(id, ids);
      var rest :- KeepListed(items[1..], ids);
      var r := if b then [items[0]] + rest else rest;
      assert b ==> r[0] == items[0] && r[1..] == rest;
      assert Subseq(r, items);
      Ok(r)
  }

  /** Leaving out elements twice leaves out elements once. */
  lemma {:induction false} SubseqTrans(a: seq<Value>, b: seq<Value>, c: seq<Value>)
    requires Subseq(a, b) && Subseq(b, c)
    ensures Subseq(a, c)
    decreases |c|
  {
    if a != [] && c != [] {
      assert b != [];
      if b[0] == c[0] && Subseq(b[1..], c[1..]) {
        if a[0] == b[0] && Subseq(a[1..], b[1..]) {
          SubseqTrans(a[1..], b[1..], c[1..]);
        } else {
          SubseqTrans(a, b[1..], c[1..]);
        }
      } else {
        SubseqTrans(a, b, c[1..]);
      }
    }
  }

  /** Every controller listed is kept, in order. */
  lemma {:induction false} KeepListedAll(items: seq<Value>, ids: Value)
    requires forall c :: c in items ==> Listed(c, ids)
    ensures KeepListed(items, ids) == Ok(items)
    decreases |items|
  {
    if items != [] {
      assert items[0] in items && forall c :: c in items[1..] ==> c in items;
      assert Listed(items[0], ids);
      KeepListedAll(items[1..], ids);
      assert [items[0]] + items[1..] == items;
    }
  }

  /** The controller is implemented in Python. */
  predicate IsPython(c: Value)
  {
    GetItem(c, "PluginImplementation") == Ok(Str("py"))
  }

  /** `[c for c in controllers if c["PluginImplementation"] == "py"]`: a controller without
      that key raises. */
  function KeepPython(items: seq<Value>): (r: Result<seq<Value>>)
    ensures r.Ok? <==> forall c :: c in items ==> GetItem(c, "PluginImplementation").Ok?
    ensures r.Err? ==> exists c :: c in items && GetItem(c, "PluginImplementation") == Err(r.error)
    ensures r.Ok? ==> Subseq(r.value, items) && |r.value| <= |items|
    ensures r.Ok? ==> forall c :: c in r.value <==> c in items && IsPython(c)
    ensures r.Ok? ==> (|r.value| == |items| <==> forall c :: c in items ==> IsPython(c))
    ensures r.Ok? && (forall c :: c in items ==> IsPython(c)) ==> r.value == items
    decreases |items|
  {
    if items == [] then Ok([])
    else
      assert forall c :: c in items <==> c == items[0] || c in items[1..];
      assert items[0] in items;
      var impl :- GetItem(items[0], "PluginImplementation");
      var rest :- KeepPython(items[1..]);
      if impl == Str("py") then
        var r := [items[0]] + rest;
        assert [items[0]] + items[1..] == items;
        assert r[0] == items[0] && r[1..] == rest;
        assert Subseq(r, items);
        Ok(r)
      else
        assert !IsPython(items[0]);
        assert Subseq(rest, items);
        Ok(rest)
  }

  const InvalidTs := "Invalid sampling time 'Ts' in environment metadata."

  /** `ts <= 0` for a Python number; anything else cannot be compared. */
  function NonPositive(ts: Value): (r: Result<bool>)
    ensures ts.Int? ==> r == Ok(ts.i <= 0)
    ensures ts.Float? ==> r == Ok(ts.r <= 0.0)
  {
    match ts
    case Int(i) => Ok(i <= 0)
    case Float(x) => Ok(x <= 0.0)
    case Bool(b) => Ok(!b)
    case _ => Err(TypeError("'<=' not supported"))
  }

  /** `if metadata["Ts"] <= 0: raise ValueError(...)`. */
  function CheckTs(metadata: Value): (r: Outcome)
    ensures r == Pass <==> GetItem(metadata, "Ts").Ok? && NonPositive(GetItem(metadata, "Ts").value) == Ok(false)
    ensures GetItem(metadata, "Ts").Ok? && NonPositive(GetItem(metadata, "Ts").value) == Ok(true) ==> r == Fail(ValueError(InvalidTs))
  {
    match GetItem(metadata, "Ts")
    case Err(e) => Fail(e)
    case Ok(ts) =>
      match NonPositive(ts)
      case Err(e) => Fail(e)
      case Ok(bad) => if bad then Fail(ValueError(InvalidTs)) else Pass
  }

  /** `controller_ids` is missing: `None` or `''`. */
  predicate NoIds(ci: Value)
  {
    ci == Null || ci == Str("")
  }

  /** What the controllers are tested against: with no `controller_ids`, the list of
      every controller's `Id`. */
  function ControllerFilter(items: seq<Value>, ci: Value): (r: Result<Value>)
    ensures !NoIds(ci) ==> r == Ok(ci)
    ensures NoIds(ci) && r.Ok? ==> forall c :: c in items ==> Listed(c, r.value)
  {
    if NoIds(ci) then
      var ids :- Ids(items);
      Ok(List(ids))
    else Ok(ci)
  }

  /** The two comprehensions over the controllers: those whose `Id` is in `ids`, then
      of those the ones implemented in Python, in their order; and whether the warning
      about dropped non-Python controllers is issued. */
  function SelectListed(items: seq<Value>, ids: Value): (r: Result<(seq<Value>, bool)>)
    ensures r.Ok? <==> KeepListed(items, ids).Ok? && KeepPython(KeepListed(items, ids).value).Ok?
    ensures r.Ok? ==> Subseq(r.value.0, items)
    ensures r.Ok? ==> forall c :: c in r.value.0 <==> c in items && Listed(c, ids) && IsPython(c)
    ensures r.Ok? ==> (r.value.1 <==> exists c :: c in items && Listed(c, ids) && !IsPython(c))
  {
    var kept :- KeepListed(items, ids);
    var py :- KeepPython(kept);
    SubseqTrans(py, kept, items);
    Ok((py, |py| != |kept|))
  }

  /** The controllers kept, from `data.controllers` and `controller_ids`: with no ids,
      every controller's own `Id` is the filter. */
  function SelectControllers(controllers: Value, ci: Value): (r: Result<(seq<Value>, bool)>)
    ensures r.Ok? ==> Iterate(controllers).Ok? && ControllerFilter(Iterate(controllers).value, ci).Ok?
    ensures r.Ok? ==> r == SelectListed(Iterate(controllers).value, ControllerFilter(Iterate(controllers).value, ci).value)
    ensures Iterate(controllers).Err? ==> r == Err(Iterate(controllers).error)
  {
    var items :- Iterate(controllers);
    var ids :- ControllerFilter(items, ci);
    SelectListed(items, ids)
  }

  /** With no `controller_ids` every controller passes the `Id` test, so exactly the
      Python controllers are kept. */
  lemma NoIdsKeepsPython(controllers: Value, ci: Value)
    requires NoIds(ci) && SelectControllers(controllers, ci).Ok?
    ensures KeepPython(Iterate(controllers).value).Ok?
    ensures SelectControllers(controllers, ci).value.0 == KeepPython(Iterate(controllers).value).value
  {
    var items := Iterate(controllers).value;
    var ids := ControllerFilter(items, ci).value;
    KeepListedAll(items, ids);
    assert KeepListed(items, ids) == Ok(items);
    assert SelectControllers(controllers, ci) == SelectListed(items, ids);
  }

  /** A string `controller_ids` is tested as a substring: a controller whose `Id` occurs
      in it is kept, one whose `Id` does not is dropped. */
  lemma SubstringFilter(c: Value, ids: string, id: string)
    requires GetItem(c, "Id") == Ok(Str(id))
    ensures Contains(ids, id) ==> KeepListed([c], Str(ids)) == Ok([c])
    ensures !Contains(ids, id) ==> KeepListed([c], Str(ids)) == Ok([])
  {
    assert [c][1..] == [] && [c][0] == c;
    assert KeepListed([], Str(ids)) == Ok([]);
    assert InValue(Str(id), Str(ids)) == Ok(Contains(ids, id));
    assert [c] + [] == [c];
  }

  /** Everything `load_control_environment_params_and_data` does to the loaded
      environment before evaluating its parameters: the new namespace, and whether the
      warning is issued. */
  function FilterData(data: Namespace, envPath: string, si: Option<string>, ci: Value): (r: Result<(Namespace, bool)>)
    ensures r.Ok? ==> r.value.0.Keys == data.Keys + {"env_path"}
    ensures r.Ok? ==>
      "systems" in data && SelectSystems(data["systems"], si).Ok? && r.value.0["systems"] == SelectSystems(data["systems"], si).value
    ensures r.Ok? ==>
      "controllers" in data && SelectControllers(data["controllers"], ci).Ok? &&
      r.value.0["controllers"] == List(SelectControllers(data["controllers"], ci).value.0) &&
      r.value.1 == SelectControllers(data["controllers"], ci).value.1
    ensures r.Ok? ==> r.value.0["env_path"] == Str(envPath)
    ensures r.Ok? ==> "metadata" in r.value.0 && CheckTs(r.value.0["metadata"]) == Pass
  {
    var systems :- GetAttr(data, "systems");
    var sel :- SelectSystems(systems, si);
    var d1 := data["systems" := sel];
    var controllers :- GetAttr(d1, "controllers");
    var c :- SelectControllers(controllers, ci);
    var d2 := d1["controllers" := List(c.0)]["env_path" := Str(envPath)];
    var md :- GetAttr(d2, "metadata");
    match CheckTs(md)
    case Fail(e) => Err(e)
    case Pass => Ok((d2, c.1))
  }

  /** A non-positive sampling time is rejected once the selection succeeded. */
  lemma NonPositiveTsRejected(data: Namespace, envPath: string, si: Option<string>, ci: Value, ts: Value)
    requires "systems" in data && SelectSystems(data["systems"], si).Ok?
    requires "controllers" in data && SelectControllers(data["controllers"], ci).Ok?
    requires "metadata" in data && GetItem(data["metadata"], "Ts") == Ok(ts) && NonPositive(ts) == Ok(true)
    ensures FilterData(data, envPath, si, ci) == Err(ValueError(InvalidTs))
  {
    var d1 := data["systems" := SelectSystems(data["systems"], si).value];
    assert d1["controllers"] == data["controllers"];
    var d2 := d1["controllers" := List(SelectControllers(data["controllers"], ci).value.0)]["env_path" := Str(envPath)];
    assert d2["metadata"] == data["metadata"];
    assert CheckTs(data["metadata"]) == Fail(ValueError(InvalidTs));
  }

  /** What `load_control_environment_params_and_data` returns: the evaluated
      parameters, the filtered environment and whether a warning was issued. */
  datatype Loaded = Loaded(params: map<Value, Option<EP.Evaluated>>, data: Namespace, warned: bool)

  /** `load_control_environment_params_and_data(env_path, system_instance,
      controller_ids)`; `loaded` is what loading the environment gave. */
  function LoadControlEnvironmentParamsAndData(ctx: EP.Ctx, b: EP.Backend, loaded: Result<Namespace>, envPath: string,
                                               si: Option<string>, ci: Value): (r: Result<Loaded>)
    ensures loaded.Err? ==> r == Err(loaded.error)
    ensures r.Ok? ==> loaded.Ok? && FilterData(loaded.value, envPath, si, ci) == Ok((r.value.data, r.value.warned))
    ensures r.Ok? ==> EP.EvalEnvironmentParamsSpec(ctx, b, envPath, r.value.data) == Ok(r.value.params)
    ensures loaded.Ok? && FilterData(loaded.value, envPath, si, ci).Err? ==> r == Err(FilterData(loaded.value, envPath, si, ci).error)
  {
    var data :- loaded;
    var f :- FilterData(data, envPath, si, ci);
    var params :- EP.EvalEnvironmentParamsSpec(ctx, b, envPath, f.0);
    Ok(Loaded(params, f.0, f.1))
  }

  /** `Path(env_path).stem`. */
  function GetEnvName(envPath: string): (r: string)
    ensures '/' !in r
  {
    Stem(envPath)
  }

  /** The marker file's name: `<stem>.cse`. */
  function MarkerName(envPath: string): string
  {
    GetEnvName(envPath) + ".cse"
  }

  /** `is_valid_environment_path(path)`: a folder holding an entry, file or folder,
      named `<stem>.cse`. */
  predicate IsValidEnvironmentPath(fs: FS, cwd: Path, s: string)
  {
    IsDir(fs, Resolve(cwd, s)) && Resolve(cwd, JoinText(s, MarkerName(s))) in fs
  }

  /** The marker sits directly in the environment folder. */
  lemma MarkerPath(cwd: Path, s: string)
    ensures Resolve(cwd, JoinText(s, MarkerName(s))) == Resolve(cwd, s) + [MarkerName(s)]
  {
    var m := MarkerName(s);
    assert '/' !in m by {
      forall k | 0 <= k < |m| ensures m[k] != '/' {
        if k < |GetEnvName(s)| { assert m[k] == GetEnvName(s)[k]; }
        else { assert m[k] == ".cse"[k - |GetEnvName(s)|]; }
      }
    }
    assert m != "" && m != "." by {
      assert |m| >= 4;
    }
    assert !IsAbsolute(m);
    ResolveJoin(cwd, s, m);
    PartsPlain(m);
  }

  /** Against `is_env_path`: on a well-formed tree a marker file makes a valid
      environment, and a valid environment whose marker is a file is one; a folder
      named like the marker satisfies this check only. */
  lemma ValidAgainstEnvPath(fs: FS, cwd: Path, s: string)
    requires WellFormed(fs)
    ensures EnvironmentUtils.IsEnvPath(fs, cwd, s) ==> IsValidEnvironmentPath(fs, cwd, s)
    ensures IsValidEnvironmentPath(fs, cwd, s) ==>
      (EnvironmentUtils.IsEnvPath(fs, cwd, s) <==> IsFile(fs, Resolve(cwd, s) + [MarkerName(s)]))
  {
    MarkerPath(cwd, s);
    EnvironmentUtils.IsEnvPathMarker(fs, cwd, s);
    if EnvironmentUtils.IsEnvPath(fs, cwd, s) {
      EnvironmentUtils.MarkerImpliesFolder(fs, cwd, s);
    }
  }

  /** `os.makedirs(p)` without `exist_ok`: an existing entry raises. */
  function MakeNewDirs(fs: FS, p: Path): (r: Result<FS>)
    ensures p in fs ==> r == Err(FileExistsError(p))
    ensures p !in fs ==> r == MakeDirs(fs, p)
  {
    if p in fs then Err(FileExistsError(p)) else MakeDirs(fs, p)
  }

  /** The `config.json` of a new environment. */
  function NewConfig(uuid: string, name: string): (r: Value)
    ensures JsonValue(r)
    ensures GetItem(r, "Ts") == Ok(Float(0.0))
  {
    var e := [("Id", Str(uuid)), ("Name", Str(name)), ("Version", Str("0.1")), ("Ts", Float(0.0))];
    assert DistinctKeys(e) by {
      forall i, j | 0 <= i < j < |e| ensures e[i].0 != e[j].0 {
        assert e[i].0[0] != e[j].0[0] || |e[i].0| != |e[j].0|;
      }
    }
    assert Lookup(e, "Ts") == Some(Float(0.0)) by {
      LookupFirst(e, 3);
    }
    Dict(e)
  }

  /** A freshly created environment has `Ts` 0.0, so loading rejects it until it is
      edited. */
  lemma NewConfigRejected(uuid: string, name: string)
    ensures CheckTs(NewConfig(uuid, name)) == Fail(ValueError(InvalidTs))
  {
  }

  function AlreadyExists(envPath: string): string
  {
    "Environment path '" + envPath + "' already exists."
  }

  /** `create_environment(base_path, env_name)` with the marker file named `marker`:
      the folders `<env>`, `<env>/<name>` and `<env>/parts`, an empty marker and
      `config.json`, each step raising on what `os` refuses. `setup_environment` does
      nothing. */
  function CreateWithMarker(fs: FS, cwd: Path, codec: JsonCodec, basePath: string, envName: string, uuid: string, marker: string): (FS, Outcome)
  {
    var envPath := JoinText(basePath, envName);
    CreateSteps(fs, codec, envPath, Resolve(cwd, envPath), Resolve(cwd, JoinText(envPath, envName)),
                Resolve(cwd, JoinText(envPath, "parts")), Resolve(cwd, JoinText(envPath, marker)),
                Resolve(cwd, JoinText(envPath, "config.json")), NewConfig(uuid, envName))
  }

  /** The steps of `create_environment` on the resolved paths: the environment folder
      `env`, the folders `inner` and `parts`, the marker and the configuration `doc`. */
  function CreateSteps(fs: FS, codec: JsonCodec, envPath: string, env: Path, inner: Path, parts: Path,
                       marker: Path, config: Path, doc: Value): (FS, Outcome)
  {
    if env in fs then (fs, Fail(ValueError(AlreadyExists(envPath))))
    else match MakeDirs(fs, env)
      case Err(e) => (fs, Fail(e))
      case Ok(fs1) =>
        match MakeNewDirs(fs1, inner)
        case Err(e) => (fs1, Fail(e))
        case Ok(fs2) =>
          match MakeNewDirs(fs2, parts)
          case Err(e) => (fs2, Fail(e))
          case Ok(fs3) =>
            match WriteText(fs3, marker, "")
            case Err(e) => (fs3, Fail(e))
            case Ok(fs4) => SaveJson(fs4, codec, config, doc)
  }

  /** In a folder of a well-formed tree, the steps with four different plain names
      under a new folder succeed and add exactly those entries. */
  lemma StepsLayout(fs: FS, codec: JsonCodec, envPath: string, env: Path, a: string, b: string, m: string, c: string, doc: Value)
    requires WellFormed(fs) && env != [] && IsDir(fs, Parent(env)) && env !in fs && JsonValue(doc)
    requires a != b && a != m && a != c && b != m && b != c && m != c
    ensures CreateSteps(fs, codec, envPath, env, env + [a], env + [b], env + [m], env + [c], doc) ==
      (fs[env := Dir][env + [a] := Dir][env + [b] := Dir][env + [m] := File("")][env + [c] := File(codec.dump(doc))], Pass)
  {
    var fs3 := fs[env := Dir][env + [a] := Dir][env + [b] := Dir];
    FolderSteps(fs, env, a, b);
    FileSteps(fs, env, a, b, m, c);
    var fs4 := fs3[env + [m] := File("")];
    assert WriteText(fs3, env + [m], "") == Ok(fs4);
    assert WriteText(fs4, env + [c], "").Ok?;
  }

  /** The three folders are made one after the other. */
  lemma FolderSteps(fs: FS, env: Path, a: string, b: string)
    requires WellFormed(fs) && env != [] && IsDir(fs, Parent(env)) && env !in fs && a != b
    ensures MakeDirs(fs, env) == Ok(fs[env := Dir])
    ensures MakeNewDirs(fs[env := Dir], env + [a]) == Ok(fs[env := Dir][env + [a] := Dir])
    ensures MakeNewDirs(fs[env := Dir][env + [a] := Dir], env + [b]) == Ok(fs[env := Dir][env + [a] := Dir][env + [b] := Dir])
  {
    ChildrenDistinct(env, a, b);
    NothingInside(fs, env, a);
    NothingInside(fs, env, b);
    assert env == Parent(env) + [env[|env| - 1]];
    MakeDirsChild(fs, Parent(env), env[|env| - 1]);
    AddChild(fs, Parent(env), env[|env| - 1], Dir);
    var fs1 := fs[env := Dir];
    MakeDirsChild(fs1, env, a);
    AddChild(fs1, env, a, Dir);
    var fs2 := fs1[env + [a] := Dir];
    MakeDirsChild(fs2, env, b);
  }

  /** After the folders, the marker and the configuration are new files in `env`. */
  lemma FileSteps(fs: FS, env: Path, a: string, b: string, m: string, c: string)
    requires WellFormed(fs) && env !in fs
    requires a != b && a != m && a != c && b != m && b != c && m != c
    ensures var fs3 := fs[env := Dir][env + [a] := Dir][env + [b] := Dir];
      IsDir(fs3, env) && env + [m] !in fs3 && env + [c] !in fs3[env + [m] := File("")]
  {
    ChildrenDistinct(env, a, m);
    ChildrenDistinct(env, a, c);
    ChildrenDistinct(env, b, m);
    ChildrenDistinct(env, b, c);
    ChildrenDistinct(env, m, c);
    ChildrenDistinct(env, a, b);
    NothingInside(fs, env, m);
    NothingInside(fs, env, c);
  }

  /** `create_environment` as written: the marker is `<env_name>.cse`. */
  function CreateEnvironmentAsWritten(fs: FS, cwd: Path, codec: JsonCodec, basePath: string, envName: string, uuid: string): (FS, Outcome)
  {
    CreateWithMarker(fs, cwd, codec, basePath, envName, uuid, envName + ".cse")
  }

  /** `create_environment` with the marker named as `is_valid_environment_path` looks
      for it: `<stem>.cse`. */
  function CreateEnvironmentSpec(fs: FS, cwd: Path, codec: JsonCodec, basePath: string, envName: string, uuid: string): (FS, Outcome)
  {
    CreateWithMarker(fs, cwd, codec, basePath, envName, uuid, MarkerName(JoinText(basePath, envName)))
  }

  /** An existing path is refused before anything is created. */
  lemma CreateExisting(fs: FS, cwd: Path, codec: JsonCodec, basePath: string, envName: string, uuid: string, marker: string)
    requires Resolve(cwd, JoinText(basePath, envName)) in fs
    ensures CreateWithMarker(fs, cwd, codec, basePath, envName, uuid, marker) ==
      (fs, Fail(ValueError(AlreadyExists(JoinText(basePath, envName)))))
  {
  }

  /** A plain name: one path component. */
  predicate Plain(n: string)
  {
    '/' !in n && n != "" && n != "."
  }

  /** In a folder of a well-formed tree, creating `<name>` with a plain marker yields
      exactly the three folders, the empty marker and the configuration. */
  lemma CreateLayout(fs: FS, cwd: Path, codec: JsonCodec, basePath: string, envName: string, uuid: string, marker: string)
    requires WellFormed(fs) && IsDir(fs, Resolve(cwd, basePath))
    requires Plain(envName) && envName != "parts" && envName != "config.json"
    requires Plain(marker) && marker != envName && marker != "parts" && marker != "config.json"
    requires Resolve(cwd, basePath) + [envName] !in fs
    ensures var env := Resolve(cwd, basePath) + [envName];
      CreateWithMarker(fs, cwd, codec, basePath, envName, uuid, marker) ==
        (fs[env := Dir][env + [envName] := Dir][env + ["parts"] := Dir][env + [marker] := File("")]
           [env + ["config.json"] := File(codec.dump(NewConfig(uuid, envName)))], Pass)
  {
    var base := Resolve(cwd, basePath);
    var envPath := JoinText(basePath, envName);
    var env := base + [envName];
    PlainJoin(cwd, basePath, envName);
    PlainJoin(cwd, envPath, envName);
    PlainJoin(cwd, envPath, "parts");
    PlainJoin(cwd, envPath, marker);
    PlainJoin(cwd, envPath, "config.json");
    assert Parent(env) == base;
    StepsLayout(fs, codec, envPath, env, envName, "parts", marker, "config.json", NewConfig(uuid, envName));
  }

  /** Adding a new entry to a folder keeps a tree well-formed. */
  lemma AddChild(fs: FS, p: Path, n: string, node: Node)
    requires WellFormed(fs) && IsDir(fs, p) && p + [n] !in fs
    ensures WellFormed(fs[p + [n] := node])
  {
    assert Parent(p + [n]) == p;
  }

  /** Entries of a folder with different names are different paths, and none is the
      folder. */
  lemma ChildrenDistinct(p: Path, a: string, b: string)
    requires a != b
    ensures p + [a] != p + [b] && p + [a] != p && p + [b] != p
  {
    assert (p + [a])[|p|] == a && (p + [b])[|p|] == b;
  }

  /** Joining a plain name descends into it. */
  lemma PlainJoin(cwd: Path, s: string, n: string)
    requires Plain(n)
    ensures Resolve(cwd, JoinText(s, n)) == Resolve(cwd, s) + [n]
  {
    PartsPlain(n);
    ResolveJoin(cwd, s, n);
  }

  /** A missing folder of a well-formed tree has no entries. */
  lemma NothingInside(fs: FS, p: Path, n: string)
    requires WellFormed(fs) && p !in fs
    ensures p + [n] !in fs
  {
    assert Parent(p + [n]) == p;
  }

  /** Finding: the stem of a name `<base>.<ext>` is `<base>`. */
  lemma StemOfExtension(base: string, ext: string)
    requires base != "" && '.' !in ext && ext != ""
    ensures StemOf(base + "." + ext) == base
  {
    var n := base + "." + ext;
    assert n[|base|] == '.';
    forall k | |base| < k < |n| ensures n[k] != '.' {
      assert n[k] == ext[k - |base| - 1];
    }
    assert LastIndex(n, '.') == |base|;
    assert n[..|base|] == base;
  }

  /** The names involved when `<base>.<ext>` is created: the folder, the marker as
      written and the marker looked for are plain and pairwise different, and different
      from the two fixed entries. */
  lemma DottedNames(base: string, ext: string)
    requires '/' !in base && base != "" && '/' !in ext && '.' !in ext && ext != "" && ext != "cse"
    requires base + "." + ext != "config.json"
    ensures var n := base + "." + ext;
      Plain(n) && Plain(n + ".cse") && Plain(base + ".cse") &&
      n != "parts" && n + ".cse" != n && n + ".cse" != "parts" && n + ".cse" != "config.json" &&
      base + ".cse" != n && base + ".cse" != "parts" && base + ".cse" != n + ".cse" && base + ".cse" != "config.json"
  {
    var n := base + "." + ext;
    var marker := n + ".cse";
    var wanted := base + ".cse";
    forall k | 0 <= k < |marker| ensures marker[k] != '/' {
      if k < |base| { assert marker[k] == base[k]; }
      else if |base| < k < |n| { assert marker[k] == ext[k - |base| - 1]; }
      else if k >= |n| { assert marker[k] == ".cse"[k - |n|]; }
    }
    assert forall k :: 0 <= k < |n| ==> n[k] == marker[k];
    forall k | 0 <= k < |wanted| ensures wanted[k] != '/' {
      if k < |base| { assert wanted[k] == base[k]; }
      else { assert wanted[k] == ".cse"[k - |base|]; }
    }
    assert n[|base|] == '.' && wanted[|base|] == '.';
    assert forall k :: 0 <= k < 5 ==> "parts"[k] != '.';
    assert marker[|marker| - 1] == 'e' && wanted[|wanted| - 1] == 'e' && "config.json"[10] == 'n';
    assert wanted[|base| + 1..] == "cse";
    assert n[|base| + 1..] == ext;
  }

  /** As written, a dotted name such as `demo.v2` gets the marker `demo.v2.cse`, while
      the validity check looks for `demo.cse`: the environment just created is not
      recognised. */
  lemma DottedNameNotRecognised(fs: FS, cwd: Path, codec: JsonCodec, basePath: string, base: string, ext: string, uuid: string)
    requires WellFormed(fs) && IsDir(fs, Resolve(cwd, basePath))
    requires '/' !in base && base != "" && '/' !in ext && '.' !in ext && ext != "" && ext != "cse"
    requires base + "." + ext != "config.json"
    requires Resolve(cwd, basePath) + [base + "." + ext] !in fs
    ensures var r := CreateEnvironmentAsWritten(fs, cwd, codec, basePath, base + "." + ext, uuid);
      r.1 == Pass && !IsValidEnvironmentPath(r.0, cwd, JoinText(basePath, base + "." + ext))
  {
    var n := base + "." + ext;
    var env := Resolve(cwd, basePath) + [n];
    var t := codec.dump(NewConfig(uuid, n));
    AsWrittenLayout(fs, cwd, codec, basePath, base, ext, uuid);
    LookedForMarker(cwd, basePath, base, ext);
    WantedMissing(fs, env, base, ext, t);
  }

  /** The tree `create_environment` leaves for `<base>.<ext>` as written. */
  lemma AsWrittenLayout(fs: FS, cwd: Path, codec: JsonCodec, basePath: string, base: string, ext: string, uuid: string)
    requires WellFormed(fs) && IsDir(fs, Resolve(cwd, basePath))
    requires '/' !in base && base != "" && '/' !in ext && '.' !in ext && ext != "" && ext != "cse"
    requires base + "." + ext != "config.json"
    requires Resolve(cwd, basePath) + [base + "." + ext] !in fs
    ensures var n := base + "." + ext; var env := Resolve(cwd, basePath) + [n];
      CreateEnvironmentAsWritten(fs, cwd, codec, basePath, n, uuid) ==
        (fs[env := Dir][env + [n] := Dir][env + ["parts"] := Dir][env + [n + ".cse"] := File("")]
           [env + ["config.json"] := File(codec.dump(NewConfig(uuid, n)))], Pass)
  {
    DottedNames(base, ext);
    CreateLayout(fs, cwd, codec, basePath, base + "." + ext, uuid, base + "." + ext + ".cse");
  }

  /** The marker `is_valid_environment_path` looks for in `<base>.<ext>` is `<base>.cse`. */
  lemma LookedForMarker(cwd: Path, basePath: string, base: string, ext: string)
    requires '/' !in base && base != "" && '/' !in ext && '.' !in ext && ext != "" && ext != "cse"
    requires base + "." + ext != "config.json"
    ensures var envPath := JoinText(basePath, base + "." + ext);
      Resolve(cwd, JoinText(envPath, MarkerName(envPath))) == Resolve(cwd, basePath) + [base + "." + ext] + [base + ".cse"]
  {
    var n := base + "." + ext;
    var envPath := JoinText(basePath, n);
    DottedNames(base, ext);
    PlainJoin(cwd, basePath, n);
    PlainJoin([], basePath, n);
    assert Parts(envPath) == Resolve([], envPath);
    assert Name(envPath) == n;
    StemOfExtension(base, ext);
    MarkerPath(cwd, envPath);
  }

  /** `<base>.cse` is none of the entries created for `<base>.<ext>`. */
  lemma WantedMissing(fs: FS, env: Path, base: string, ext: string, t: string)
    requires WellFormed(fs) && env !in fs
    requires '/' !in base && base != "" && '/' !in ext && '.' !in ext && ext != "" && ext != "cse"
    requires base + "." + ext != "config.json"
    ensures var n := base + "." + ext;
      env + [base + ".cse"] !in fs[env := Dir][env + [n] := Dir][env + ["parts"] := Dir][env + [n + ".cse"] := File("")]
           [env + ["config.json"] := File(t)]
  {
    var n := base + "." + ext;
    var wanted := base + ".cse";
    DottedNames(base, ext);
    ChildrenDistinct(env, wanted, n);
    ChildrenDistinct(env, wanted, "parts");
    ChildrenDistinct(env, wanted, n + ".cse");
    ChildrenDistinct(env, wanted, "config.json");
    NothingInside(fs, env, wanted);
  }

  /** With the marker named after the stem, a successful creation always gives a
      recognised environment. */
  lemma CreatedIsValid(fs: FS, cwd: Path, codec: JsonCodec, basePath: string, envName: string, uuid: string)
    requires CreateEnvironmentSpec(fs, cwd, codec, basePath, envName, uuid).1 == Pass
    ensures IsValidEnvironmentPath(CreateEnvironmentSpec(fs, cwd, codec, basePath, envName, uuid).0, cwd, JoinText(basePath, envName))
  {
    var envPath := JoinText(basePath, envName);
    StepsPass(fs, codec, envPath, Resolve(cwd, envPath), Resolve(cwd, JoinText(envPath, envName)),
              Resolve(cwd, JoinText(envPath, "parts")), Resolve(cwd, JoinText(envPath, MarkerName(envPath))),
              Resolve(cwd, JoinText(envPath, "config.json")), NewConfig(uuid, envName));
  }

  /** Once every step succeeded, the environment folder is a folder and the marker
      exists. */
  lemma StepsPass(fs: FS, codec: JsonCodec, envPath: string, env: Path, inner: Path, parts: Path,
                  marker: Path, config: Path, doc: Value)
    requires CreateSteps(fs, codec, envPath, env, inner, parts, marker, config, doc).1 == Pass
    ensures var r := CreateSteps(fs, codec, envPath, env, inner, parts, marker, config, doc).0;
      IsDir(r, env) && marker in r
  {
    MakeDirsSpec(fs, env);
    assert env in Ancestors(env) by {
      assert env == env[..|env|];
    }
    var fs1 := MakeDirs(fs, env).value;
    MakeDirsSpec(fs1, inner);
    var fs2 := MakeNewDirs(fs1, inner).value;
    MakeDirsSpec(fs2, parts);
    var fs3 := MakeNewDirs(fs2, parts).value;
    assert IsDir(fs3, env);
    var fs4 := WriteText(fs3, marker, "").value;
    SaveJsonPass(fs4, codec, config, doc);
  }

  /** `create_environment(base_path, env_name)`, step by step on the disk. */
  method CreateEnvironment(disk: Disk, cwd: Path, codec: JsonCodec, basePath: string, envName: string, uuid: string) returns (o: Outcome)
    modifies disk
    ensures (disk.fs, o) == CreateEnvironmentAsWritten(old(disk.fs), cwd, codec, basePath, envName, uuid)
  {
    var envPath := JoinText(basePath, envName);
    var env := Resolve(cwd, envPath);
    if env in disk.fs {
      return Fail(ValueError(AlreadyExists(envPath)));
    }
    o := disk.Mkdir(env);
    if o.Fail? {
      return;
    }
    var sub := Resolve(cwd, JoinText(envPath, envName));
    if sub in disk.fs {
      return Fail(FileExistsError(sub));
    }
    o := disk.Mkdir(sub);
    if o.Fail? {
      return;
    }
    var parts := Resolve(cwd, JoinText(envPath, "parts"));
    if parts in disk.fs {
      return Fail(FileExistsError(parts));
    }
    o := disk.Mkdir(parts);
    if o.Fail? {
      return;
    }
    o := disk.Write(Resolve(cwd, JoinText(envPath, envName + ".cse")), "");
    if o.Fail? {
      return;
    }
    o := disk.DumpJson(codec, Resolve(cwd, JoinText(envPath, "config.json")), NewConfig(uuid, envName));
  }

  /** The texts `env_eval_file.format(...)` substitutes: a missing system instance
      becomes `None` inside quotes and missing controller ids the literal `"None"`. */
  function ScriptArgsText(envPath: string, si: Option<string>, ci: Option<string>): (string, string, string)
  {
    (envPath, if Given(si) then si.value else "None", if ci.Some? && ci.value != "" then ci.value else "\"None\"")
  }

  /** Where the script is written: `<env>/<stem>.py`. */
  function ScriptPath(cwd: Path, envPath: string): (r: Path)
    ensures r == Resolve(cwd, envPath) + [GetEnvName(envPath) + ".py"]
  {
    Join(Resolve(cwd, envPath), GetEnvName(envPath) + ".py")
  }

  /** `generate_control_environment(env_path, system_instance, controller_ids)`: the
      filled template is written to `<env>/<stem>.py`; opening it in an editor is not
      modelled. */
  method GenerateControlEnvironment(disk: Disk, cwd: Path, envPath: string, si: Option<string>, ci: Option<string>,
                                    template: ((string, string, string)) -> string) returns (o: Outcome)
    modifies disk
    ensures var r := WriteText(old(disk.fs), ScriptPath(cwd, envPath), template(ScriptArgsText(envPath, si, ci)));
      if r.Ok? then disk.fs == r.value && o == Pass else disk.fs == old(disk.fs) && o == Fail(r.error)
  {
    var source := template(ScriptArgsText(envPath, si, ci));
    o := disk.Write(ScriptPath(cwd, envPath), source);
  }

  /** The call the generated script makes, as written: `system_instance = "<text>"`
      passes the text as a string, so a missing instance arrives as `'None'`, and the
      literal `"None"` passes the string `'None'` as the controller ids; given ids are
      read as a Python literal. */
  function GeneratedCall(si: Option<string>, ci: Option<string>, literal: string -> Value): (Option<string>, Value)
  {
    var t := ScriptArgsText("", si, ci);
    (Some(t.1), if ci.Some? && ci.value != "" then literal(t.2) else Str("None"))
  }

  /** Finding: as written, a script generated without a system instance asks for the
      instance `'None'`, so an environment with a single system, which the direct call
      accepts, is refused; and the ids `'None'` keep only controllers whose `Id` is a
      substring of `None`. */
  lemma GeneratedCallRefusesSingleSystem(s: Value, id: string, literal: string -> Value)
    requires GetItem(s, "Id") == Ok(Str(id)) && id != "None"
    ensures SelectSystems(List([s]), None) == Ok(List([s]))
    ensures SelectSystems(List([s]), GeneratedCall(None, None, literal).0) == Err(ValueError(SystemNotFound("None")))
    ensures GeneratedCall(None, None, literal).1 == Str("None")
  {
    assert [s][1..] == [];
    assert FindById([s], Str("None")) == Ok(None);
  }

  /** The call the script evidently means to make: missing arguments stay missing. */
  function GeneratedCallFixed(si: Option<string>, ci: Option<string>, literal: string -> Value): (r: (Option<string>, Value))
    ensures !Given(si) ==> !Given(r.0)
    ensures (ci.None? || ci.value == "") ==> r.1 == Null
  {
    (if Given(si) then si else None, if ci.Some? && ci.value != "" then literal(ci.value) else Null)
  }

  /** With missing arguments, the corrected script loads exactly what the direct call
      loads. */
  lemma GeneratedCallFixedMatchesDirect(data: Namespace, envPath: string, literal: string -> Value)
    ensures var c := GeneratedCallFixed(None, None, literal);
      FilterData(data, envPath, c.0, c.1) == FilterData(data, envPath, None, Null)
  {
  }
}

/** The component-library registry of the Python backend (`backend/library_helpers.py`).
    The registry is a folder whose entries are library folders or `*.json` pointer files
    naming a library's `Path`; a library holds `package.json`, `plugins.json` and
    `autogen/manifest.json`. The registry folder, the order `os.listdir` gives and the
    JSON and JSON5 decoders are parameters. */
module LibraryHelpers {
  import opened Wrappers
  import opened Strings
  import opened Values
  import opened FileSystem
  import opened PyPaths

  /** `n in ['.', '..', 'slprj']`: entries every scan skips. */
  predicate IsIgnored(n: string)
  {
    n == "." || n == ".." || n == "slprj"
  }

  /** `os.path.join(p, 'autogen', 'manifest.json')`. */
  function ManifestText(p: string): string
  {
    JoinText(JoinText(p, "autogen"), "manifest.json")
  }

  /** The manifest lies in the `autogen` folder of the library. */
  lemma ManifestPath(cwd: Path, p: string)
    ensures Resolve(cwd, ManifestText(p)) == Resolve(cwd, p) + ["autogen", "manifest.json"]
  {
    assert "autogen"[0] == 'a' && "manifest.json"[0] == 'm';
    ResolveJoinPlain(cwd, p, "autogen", "manifest.json");
  }

  lemma ResolveJoinPlain(cwd: Path, p: string, x: string, y: string)
    requires '/' !in x && x != "" && x != "." && '/' !in y && y != "" && y != "."
    requires !IsAbsolute(x) && !IsAbsolute(y)
    ensures Resolve(cwd, JoinText(JoinText(p, x), y)) == Resolve(cwd, p) + [x, y]
  {
    PartsPlain(x);
    PartsPlain(y);
    ResolveJoin(cwd, p, x);
    ResolveJoin(cwd, JoinText(p, x), y);
    assert Resolve(cwd, p) + [x] + [y] == Resolve(cwd, p) + [x, y];
  }

  /** `os.listdir(reg)` raises on a missing registry or on a file. */
  function ListDirCheck(fs: FS, p: Path): (r: Outcome)
    ensures r == Pass <==> IsDir(fs, p)
  {
    if p !in fs then Fail(FileNotFoundError(p))
    else if !IsDir(fs, p) then Fail(NotADirectoryError(p))
    else Pass
  }

  // ---------------------------------------------------------------------------
  // get_available_plugins

  /** The loop state of `get_available_plugins`: the last `manifest_file` assigned, if
      any, and the `plugins` dict (its insertion order is not modelled). */
  datatype Scan = Scan(manifest: Option<string>, plugins: map<Value, Value>)

  /** Reading a manifest when it is a file: `plugins[data["Library"]] = data["Registry"]`,
      the right-hand side read first. */
  function ReadManifest(fs: FS, cwd: Path, json5: JsonCodec, m: string, plugins: map<Value, Value>): (r: Result<map<Value, Value>>)
    ensures !IsFile(fs, Resolve(cwd, m)) ==> r == Ok(plugins)
    ensures IsFile(fs, Resolve(cwd, m)) && r.Ok? ==>
      var data := json5.load(fs[Resolve(cwd, m)].text);
      data.Ok? && GetItem(data.value, "Library").Ok? && GetItem(data.value, "Registry").Ok? &&
      Hashable(GetItem(data.value, "Library").value) &&
      r.value == plugins[GetItem(data.value, "Library").value := GetItem(data.value, "Registry").value]
  {
    if !IsFile(fs, Resolve(cwd, m)) then Ok(plugins)
    else
      var data :- LoadJson(fs, json5, Resolve(cwd, m));
      var registry :- GetItem(data, "Registry");
      var lib :- GetItem(data, "Library");
      if !Hashable(lib) then Err(TypeError("unhashable type")) else Ok(plugins[lib := registry])
  }

  /** Reading the same manifest again changes nothing. */
  lemma ReadManifestTwice(fs: FS, cwd: Path, json5: JsonCodec, m: string, plugins: map<Value, Value>)
    requires ReadManifest(fs, cwd, json5, m, plugins).Ok?
    ensures var p := ReadManifest(fs, cwd, json5, m, plugins).value;
      ReadManifest(fs, cwd, json5, m, p) == Ok(p)
  {
    if IsFile(fs, Resolve(cwd, m)) {
      var data := json5.load(fs[Resolve(cwd, m)].text).value;
      var lib := GetItem(data, "Library").value;
      var reg := GetItem(data, "Registry").value;
      assert plugins[lib := reg][lib := reg] == plugins[lib := reg];
    }
  }

  /** The `manifest_file` after the `if`/`elif` for entry `n`: in a folder entry, under a
      pointer's `Path`, and otherwise still the previous one. */
  function EntryManifest(fs: FS, cwd: Path, json5: JsonCodec, reg: string, n: string, prev: Option<string>): (r: Result<Option<string>>)
    ensures IsDir(fs, Resolve(cwd, JoinText(reg, n))) ==> r == Ok(Some(ManifestText(JoinText(reg, n))))
    ensures !IsDir(fs, Resolve(cwd, JoinText(reg, n))) && !EndsWith(n, ".json") ==> r == Ok(prev)
    ensures !IsDir(fs, Resolve(cwd, JoinText(reg, n))) && EndsWith(n, ".json") && r.Ok? ==>
      var s := LoadJson(fs, json5, Resolve(cwd, JoinText(reg, n)));
      s.Ok? && GetItem(s.value, "Path").Ok? && GetItem(s.value, "Path").value.Str? &&
      r.value == Some(ManifestText(GetItem(s.value, "Path").value.s))
  {
    var full := JoinText(reg, n);
    if IsDir(fs, Resolve(cwd, full)) then Ok(Some(ManifestText(full)))
    else if EndsWith(n, ".json") then
      var s :- LoadJson(fs, json5, Resolve(cwd, full));
      var lib :- GetItem(s, "Path");
      var l :- AsString(lib);
      Ok(Some(ManifestText(l)))
    else Ok(prev)
  }

  /** One iteration of the loop of `get_available_plugins`. */
  function PluginsStep(fs: FS, cwd: Path, json5: JsonCodec, reg: string, n: string, st: Scan): (r: Result<Scan>)
    ensures IsIgnored(n) ==> r == Ok(st)
    ensures r.Ok? && !IsIgnored(n) ==> r.value.manifest.Some?
    ensures r.Ok? && !IsIgnored(n) ==>
      EntryManifest(fs, cwd, json5, reg, n, st.manifest) == Ok(r.value.manifest) &&
      ReadManifest(fs, cwd, json5, r.value.manifest.value, st.plugins) == Ok(r.value.plugins)
    ensures !IsIgnored(n) && EntryManifest(fs, cwd, json5, reg, n, st.manifest) == Ok(None) ==>
      r == Err(UnboundLocalError("manifest_file"))
  {
    if IsIgnored(n) then Ok(st)
    else
      var mf :- EntryManifest(fs, cwd, json5, reg, n, st.manifest);
      match mf
      case None => Err(UnboundLocalError("manifest_file"))
      case Some(m) =>
        var p :- ReadManifest(fs, cwd, json5, m, st.plugins);
        Ok(Scan(Some(m), p))
  }

  /** The loop of `get_available_plugins` over the remaining entries. */
  function PluginsFrom(fs: FS, cwd: Path, json5: JsonCodec, reg: string, names: seq<string>, st: Scan): Result<Scan>
    decreases |names|
  {
    if names == [] then Ok(st)
    else
      var st1 :- PluginsStep(fs, cwd, json5, reg, names[0], st);
      PluginsFrom(fs, cwd, json5, reg, names[1..], st1)
  }

  /** `get_available_plugins()`, with the registry `reg` listed as `names`. */
  function GetAvailablePluginsSpec(fs: FS, cwd: Path, json5: JsonCodec, reg: string, names: seq<string>): Result<map<Value, Value>>
  {
    match ListDirCheck(fs, Resolve(cwd, reg))
    case Fail(e) => Err(e)
    case Pass =>
      var st :- PluginsFrom(fs, cwd, json5, reg, names, Scan(None, map[]));
      Ok(st.plugins)
  }

  method GetAvailablePlugins(fs: FS, cwd: Path, json5: JsonCodec, reg: string, names: seq<string>) returns (r: Result<map<Value, Value>>)
    ensures r == GetAvailablePluginsSpec(fs, cwd, json5, reg, names)
  {
    var c := ListDirCheck(fs, Resolve(cwd, reg));
    if c.Fail? {
      return Err(c.error);
    }
    var manifest: Option<string> := None;
    var plugins: map<Value, Value> := map[];
    var i := 0;
    while i < |names|
      invariant 0 <= i <= |names|
      invariant PluginsFrom(fs, cwd, json5, reg, names[i..], Scan(manifest, plugins)) ==
        PluginsFrom(fs, cwd, json5, reg, names, Scan(None, map[]))
    {
      assert names[i..][0] == names[i] && names[i..][1..] == names[i + 1..];
      var n := names[i];
      if IsIgnored(n) {
        i := i + 1;
        continue;
      }
      var m := EntryManifest(fs, cwd, json5, reg, n, manifest);
      if m.Err? {
        return Err(m.error);
      }
      if m.value.None? {
        return Err(UnboundLocalError("manifest_file"));
      }
      manifest := m.value;
      var p := ReadManifest(fs, cwd, json5, manifest.value, plugins);
      if p.Err? {
        return Err(p.error);
      }
      plugins := p.value;
      i := i + 1;
    }
    assert names[i..] == [];
    r := Ok(plugins);
  }

  /** Scanning `a + b` is scanning `a`, then `b` from where `a` left off. */
  lemma {:induction false} PluginsFromAppend(fs: FS, cwd: Path, json5: JsonCodec, reg: string, a: seq<string>, b: seq<string>, st: Scan)
    ensures PluginsFrom(fs, cwd, json5, reg, a + b, st) ==
      match PluginsFrom(fs, cwd, json5, reg, a, st)
      case Err(e) => Err(e)
      case Ok(s1) => PluginsFrom(fs, cwd, json5, reg, b, s1)
    decreases |a|
  {
    if a == [] {
      assert a + b == b;
    } else {
      assert (a + b)[0] == a[0] && (a + b)[1..] == a[1..] + b;
      match PluginsStep(fs, cwd, json5, reg, a[0], st)
      case Err(e) =>
      case Ok(s1) => PluginsFromAppend(fs, cwd, json5, reg, a[1..], b, s1);
    }
  }

  /** The libraries found only accumulate: no key is ever removed. */
  lemma {:induction false} PluginsKeysGrow(fs: FS, cwd: Path, json5: JsonCodec, reg: string, names: seq<string>, st: Scan)
    requires PluginsFrom(fs, cwd, json5, reg, names, st).Ok?
    ensures st.plugins.Keys <= PluginsFrom(fs, cwd, json5, reg, names, st).value.plugins.Keys
    decreases |names|
  {
    if names != [] {
      var st1 := PluginsStep(fs, cwd, json5, reg, names[0], st).value;
      assert st.plugins.Keys <= st1.plugins.Keys;
      PluginsKeysGrow(fs, cwd, json5, reg, names[1..], st1);
    }
  }

  /** A later library folder whose manifest names library `lib` overrides what earlier
      entries recorded for it. */
  lemma LaterOverwrites(fs: FS, cwd: Path, json5: JsonCodec, reg: string, names: seq<string>, n: string, data: Value, lib: Value, registry: Value)
    requires PluginsFrom(fs, cwd, json5, reg, names, Scan(None, map[])).Ok?
    requires !IsIgnored(n) && IsDir(fs, Resolve(cwd, JoinText(reg, n)))
    requires IsFile(fs, Resolve(cwd, ManifestText(JoinText(reg, n))))
    requires json5.load(fs[Resolve(cwd, ManifestText(JoinText(reg, n)))].text) == Ok(data)
    requires GetItem(data, "Library") == Ok(lib) && GetItem(data, "Registry") == Ok(registry) && Hashable(lib)
    ensures PluginsFrom(fs, cwd, json5, reg, names + [n], Scan(None, map[])).Ok?
    ensures lib in PluginsFrom(fs, cwd, json5, reg, names + [n], Scan(None, map[])).value.plugins
    ensures PluginsFrom(fs, cwd, json5, reg, names + [n], Scan(None, map[])).value.plugins[lib] == registry
  {
    var st := Scan(None, map[]);
    PluginsFromAppend(fs, cwd, json5, reg, names, [n], st);
    var s1 := PluginsFrom(fs, cwd, json5, reg, names, st).value;
    assert [n][1..] == [];
    var m := ManifestText(JoinText(reg, n));
    assert ReadManifest(fs, cwd, json5, m, s1.plugins) == Ok(s1.plugins[lib := registry]);
  }

  /** An entry that is neither a folder nor `*.json` before any manifest was chosen
      raises `UnboundLocalError`. */
  lemma UnboundAtStart(fs: FS, cwd: Path, json5: JsonCodec, reg: string, n: string, rest: seq<string>)
    requires !IsIgnored(n) && !IsDir(fs, Resolve(cwd, JoinText(reg, n))) && !EndsWith(n, ".json")
    ensures PluginsFrom(fs, cwd, json5, reg, [n] + rest, Scan(None, map[])) == Err(UnboundLocalError("manifest_file"))
  {
    assert ([n] + rest)[0] == n;
  }

  /** Such an entry after a library reads the previous manifest again, which adds
      nothing. */
  lemma PlainEntryRereads(fs: FS, cwd: Path, json5: JsonCodec, reg: string, d: string, f: string, st: Scan)
    requires !IsIgnored(d) && PluginsStep(fs, cwd, json5, reg, d, st).Ok?
    requires !IsIgnored(f) && !IsDir(fs, Resolve(cwd, JoinText(reg, f))) && !EndsWith(f, ".json")
    ensures var s1 := PluginsStep(fs, cwd, json5, reg, d, st).value;
      PluginsStep(fs, cwd, json5, reg, f, s1) == Ok(s1)
  {
    var s1 := PluginsStep(fs, cwd, json5, reg, d, st).value;
    ReadManifestTwice(fs, cwd, json5, s1.manifest.value, st.plugins);
  }

  // ---------------------------------------------------------------------------
  // get_library_path

  /** `n == lib_name or n == f"{lib_name}.json"`. */
  predicate Matches(n: string, lib: string)
  {
    n == lib || n == lib + ".json"
  }

  /** The entry ends the search: it matches and is a folder or a `.json` file. */
  predicate Selected(fs: FS, cwd: Path, reg: string, n: string, lib: string)
  {
    !IsIgnored(n) && Matches(n, lib) && (IsDir(fs, Resolve(cwd, JoinText(reg, n))) || EndsWith(n, ".json"))
  }

  /** What a selected entry gives: a folder its own path, a pointer its `Path`. */
  function SelectedPath(fs: FS, cwd: Path, json5: JsonCodec, reg: string, n: string): (r: Result<Value>)
    ensures IsDir(fs, Resolve(cwd, JoinText(reg, n))) ==> r == Ok(Str(JoinText(reg, n)))
    ensures !IsDir(fs, Resolve(cwd, JoinText(reg, n))) ==>
      r == (match LoadJson(fs, json5, Resolve(cwd, JoinText(reg, n)))
            case Err(e) => Err(e)
            case Ok(s) => GetItem(s, "Path"))
  {
    var full := JoinText(reg, n);
    if IsDir(fs, Resolve(cwd, full)) then Ok(Str(full))
    else
      var s :- LoadJson(fs, json5, Resolve(cwd, full));
      GetItem(s, "Path")
  }

  function LibraryNotFound(lib: string): string
  {
    "Library '" + lib + "' not found"
  }

  /** The loop of `get_library_path`. The `FileNotFoundError` it raises carries a
      message, kept as its only path component. */
  function LibraryPathFrom(fs: FS, cwd: Path, json5: JsonCodec, reg: string, names: seq<string>, lib: string): Result<Value>
    decreases |names|
  {
    if names == [] then Err(FileNotFoundError([LibraryNotFound(lib)]))
    else if Selected(fs, cwd, reg, names[0], lib) then SelectedPath(fs, cwd, json5, reg, names[0])
    else LibraryPathFrom(fs, cwd, json5, reg, names[1..], lib)
  }

  /** `get_library_path(lib_name)`. */
  function GetLibraryPathSpec(fs: FS, cwd: Path, json5: JsonCodec, reg: string, names: seq<string>, lib: string): Result<Value>
  {
    match ListDirCheck(fs, Resolve(cwd, reg))
    case Fail(e) => Err(e)
    case Pass => LibraryPathFrom(fs, cwd, json5, reg, names, lib)
  }

  method GetLibraryPath(fs: FS, cwd: Path, json5: JsonCodec, reg: string, names: seq<string>, lib: string) returns (r: Result<Value>)
    ensures r == GetLibraryPathSpec(fs, cwd, json5, reg, names, lib)
  {
    var c := ListDirCheck(fs, Resolve(cwd, reg));
    if c.Fail? {
      return Err(c.error);
    }
    var i := 0;
    while i < |names|
      invariant 0 <= i <= |names|
      invariant LibraryPathFrom(fs, cwd, json5, reg, names[i..], lib) == LibraryPathFrom(fs, cwd, json5, reg, names, lib)
    {
      assert names[i..][0] == names[i] && names[i..][1..] == names[i + 1..];
      var n := names[i];
      if IsIgnored(n) || !Matches(n, lib) {
        i := i + 1;
        continue;
      }
      var full := JoinText(reg, n);
      if IsDir(fs, Resolve(cwd, full)) {
        return Ok(Str(full));
      } else if EndsWith(n, ".json") {
        var s := LoadJson(fs, json5, Resolve(cwd, full));
        if s.Err? {
          return Err(s.error);
        }
        return GetItem(s.value, "Path");
      }
      i := i + 1;
    }
    r := Err(FileNotFoundError([LibraryNotFound(lib)]));
  }

  /** The first selected entry decides. */
  lemma {:induction false} FirstSelectedWins(fs: FS, cwd: Path, json5: JsonCodec, reg: string, names: seq<string>, lib: string, k: nat)
    requires k < |names| && Selected(fs, cwd, reg, names[k], lib)
    requires forall j :: 0 <= j < k ==> !Selected(fs, cwd, reg, names[j], lib)
    ensures LibraryPathFrom(fs, cwd, json5, reg, names, lib) == SelectedPath(fs, cwd, json5, reg, names[k])
    decreases k
  {
    if k > 0 {
      assert !Selected(fs, cwd, reg, names[0], lib);
      forall j | 0 <= j < k - 1 ensures !Selected(fs, cwd, reg, names[1..][j], lib) {
        assert names[1..][j] == names[j + 1];
      }
      FirstSelectedWins(fs, cwd, json5, reg, names[1..], lib, k - 1);
    }
  }

  /** Without a selected entry the library is not found. */
  lemma {:induction false} NoneSelected(fs: FS, cwd: Path, json5: JsonCodec, reg: string, names: seq<string>, lib: string)
    requires forall j :: 0 <= j < |names| ==> !Selected(fs, cwd, reg, names[j], lib)
    ensures LibraryPathFrom(fs, cwd, json5, reg, names, lib) == Err(FileNotFoundError([LibraryNotFound(lib)]))
    decreases |names|
  {
    if names != [] {
      assert !Selected(fs, cwd, reg, names[0], lib);
      forall j | 0 <= j < |names| - 1 ensures !Selected(fs, cwd, reg, names[1..][j], lib) {
        assert names[1..][j] == names[j + 1];
      }
      NoneSelected(fs, cwd, json5, reg, names[1..], lib);
    }
  }

  // ---------------------------------------------------------------------------
  // get_plugin_info

  /** `for comp in comps: if comp['Name'] == component_name: return comp`. */
  function FindComponent(comps: seq<Value>, name: string): (r: Result<Option<Value>>)
    ensures r.Ok? && r.value.Some? ==> r.value.value in comps && GetItem(r.value.value, "Name") == Ok(Str(name))
    ensures r == Ok(None) ==> forall c :: c in comps ==> GetItem(c, "Name").Ok? && GetItem(c, "Name") != Ok(Str(name))
    decreases |comps|
  {
    if comps == [] then Ok(None)
    else
      var n :- GetItem(comps[0], "Name");
      if n == Str(name) then Ok(Some(comps[0]))
      else
        assert forall c :: c in comps ==> c == comps[0] || c in comps[1..];
        FindComponent(comps[1..], name)
  }

  /** The outer loop over `registry.items()`, capability by capability. */
  function FindInRegistry(entries: Entries, name: string): (r: Result<Option<Value>>)
    ensures r.Ok? && r.value.Some? ==>
      exists i :: 0 <= i < |entries| && Iterate(entries[i].1).Ok? && r.value.value in Iterate(entries[i].1).value &&
        GetItem(r.value.value, "Name") == Ok(Str(name))
    ensures r == Ok(None) ==>
      forall i :: 0 <= i < |entries| ==>
        Iterate(entries[i].1).Ok? &&
        forall c :: c in Iterate(entries[i].1).value ==> GetItem(c, "Name").Ok? && GetItem(c, "Name") != Ok(Str(name))
    decreases |entries|
  {
    if entries == [] then Ok(None)
    else
      var comps :- Iterate(entries[0].1);
      var found :- FindComponent(comps, name);
      if found.Some? then Ok(found)
      else
        var r := FindInRegistry(entries[1..], name);
        assert forall i :: 1 <= i < |entries| ==> entries[i] == entries[1..][i - 1];
        assert r.Ok? && r.value.Some? ==>
          exists i :: 1 <= i < |entries| && Iterate(entries[i].1).Ok? && r.value.value in Iterate(entries[i].1).value &&
            GetItem(r.value.value, "Name") == Ok(Str(name)) by {
          if r.Ok? && r.value.Some? {
            var i :| 0 <= i < |entries[1..]| && Iterate(entries[1..][i].1).Ok? && r.value.value in Iterate(entries[1..][i].1).value &&
              GetItem(r.value.value, "Name") == Ok(Str(name));
            assert entries[1..][i] == entries[i + 1];
          }
        }
        r
  }

  function NoManifest(libPath: string): string
  {
    "Library at '" + libPath + "' does not contain a valid manifest.json file"
  }

  /** Looking the component up in the library at `libPath`. */
  function PluginInfoAt(fs: FS, cwd: Path, json5: JsonCodec, libPath: string, name: string): (r: Result<Option<Value>>)
    ensures !IsFile(fs, Resolve(cwd, ManifestText(libPath))) ==> r == Err(ValueError(NoManifest(libPath)))
    ensures r.Ok? ==>
      var plugins := LoadJson(fs, json5, Resolve(cwd, ManifestText(libPath)));
      plugins.Ok? && GetOr(plugins.value, "Registry", Dict([])).Ok? &&
      GetOr(plugins.value, "Registry", Dict([])).value.Dict? &&
      r == FindInRegistry(GetOr(plugins.value, "Registry", Dict([])).value.entries, name)
  {
    var m := ManifestText(libPath);
    if !IsFile(fs, Resolve(cwd, m)) then Err(ValueError(NoManifest(libPath)))
    else
      var plugins :- LoadJson(fs, json5, Resolve(cwd, m));
      var registry :- GetOr(plugins, "Registry", Dict([]));
      if !registry.Dict? then Err(AttributeError("items"))
      else FindInRegistry(registry.entries, name)
  }

  /** `get_plugin_info(lib_name_or_path, component_name)`: a folder is taken as the
      library itself, anything else as a registered name. */
  function GetPluginInfoSpec(fs: FS, cwd: Path, json5: JsonCodec, reg: string, names: seq<string>, lib: string, name: string): (r: Result<Option<Value>>)
    ensures IsDir(fs, Resolve(cwd, lib)) ==> r == PluginInfoAt(fs, cwd, json5, lib, name)
    ensures (!IsDir(fs, Resolve(cwd, lib)) && GetLibraryPathSpec(fs, cwd, json5, reg, names, lib).Ok? &&
             GetLibraryPathSpec(fs, cwd, json5, reg, names, lib).value.Str?) ==>
      r == PluginInfoAt(fs, cwd, json5, GetLibraryPathSpec(fs, cwd, json5, reg, names, lib).value.s, name)
    ensures !IsDir(fs, Resolve(cwd, lib)) && GetLibraryPathSpec(fs, cwd, json5, reg, names, lib).Err? ==>
      r == Err(GetLibraryPathSpec(fs, cwd, json5, reg, names, lib).error)
  {
    var lp :- if IsDir(fs, Resolve(cwd, lib)) then Ok(Str(lib)) else GetLibraryPathSpec(fs, cwd, json5, reg, names, lib);
    var libPath :- AsString(lp);
    PluginInfoAt(fs, cwd, json5, libPath, name)
  }

  method GetPluginInfo(fs: FS, cwd: Path, json5: JsonCodec, reg: string, names: seq<string>, lib: string, name: string) returns (r: Result<Option<Value>>)
    ensures r == GetPluginInfoSpec(fs, cwd, json5, reg, names, lib, name)
  {
    var libPath: string;
    if IsDir(fs, Resolve(cwd, lib)) {
      libPath := lib;
    } else {
      var lp := GetLibraryPath(fs, cwd, json5, reg, names, lib);
      if lp.Err? {
        return Err(lp.error);
      }
      if !lp.value.Str? {
        return Err(TypeError("expected str"));
      }
      libPath := lp.value.s;
    }
    var m := ManifestText(libPath);
    if !IsFile(fs, Resolve(cwd, m)) {
      return Err(ValueError(NoManifest(libPath)));
    }
    var plugins := LoadJson(fs, json5, Resolve(cwd, m));
    if plugins.Err? {
      return Err(plugins.error);
    }
    var registry := GetOr(plugins.value, "Registry", Dict([]));
    if registry.Err? {
      return Err(registry.error);
    }
    if !registry.value.Dict? {
      return Err(AttributeError("items"));
    }
    r := FindInEntries(registry.value.entries, name);
  }

  /** The two nested loops of `get_plugin_info`. */
  method FindInEntries(entries: Entries, name: string) returns (r: Result<Option<Value>>)
    ensures r == FindInRegistry(entries, name)
  {
    var i := 0;
    while i < |entries|
      invariant 0 <= i <= |entries|
      invariant FindInRegistry(entries[i..], name) == FindInRegistry(entries, name)
    {
      assert entries[i..][0] == entries[i] && entries[i..][1..] == entries[i + 1..];
      var comps := Iterate(entries[i].1);
      if comps.Err? {
        return Err(comps.error);
      }
      var j := 0;
      while j < |comps.value|
        invariant 0 <= j <= |comps.value|
        invariant FindComponent(comps.value[j..], name) == FindComponent(comps.value, name)
      {
        var cs := comps.value;
        assert cs[j..][0] == cs[j] && cs[j..][1..] == cs[j + 1..];
        var n := GetItem(cs[j], "Name");
        if n.Err? {
          return Err(n.error);
        }
        if n.value == Str(name) {
          return Ok(Some(cs[j]));
        }
        j := j + 1;
      }
      assert comps.value[j..] == [];
      i := i + 1;
    }
    assert entries[i..] == [];
    r := Ok(None);
  }

  /** The descriptor found is the first with that `Name` in capability order: every
      descriptor of the earlier capabilities has another name. */
  lemma {:induction false} FindInRegistryFirst(entries: Entries, name: string, k: nat, c: Value)
    requires k < |entries| && Iterate(entries[k].1).Ok? && FindComponent(Iterate(entries[k].1).value, name) == Ok(Some(c))
    requires forall i :: 0 <= i < k ==> Iterate(entries[i].1).Ok? && FindComponent(Iterate(entries[i].1).value, name) == Ok(None)
    ensures FindInRegistry(entries, name) == Ok(Some(c))
    decreases k
  {
    if k > 0 {
      assert Iterate(entries[0].1).Ok? && FindComponent(Iterate(entries[0].1).value, name) == Ok(None);
      forall i | 0 <= i < k - 1
        ensures Iterate(entries[1..][i].1).Ok? && FindComponent(Iterate(entries[1..][i].1).value, name) == Ok(None)
      {
        assert entries[1..][i] == entries[i + 1];
      }
      FindInRegistryFirst(entries[1..], name, k - 1, c);
    }
  }

  // ---------------------------------------------------------------------------
  // is_valid_component_library, get_library_info

  /** `is_valid_component_library(path)`: `package.json` and `plugins.json` are files. */
  predicate IsValidComponentLibrary(fs: FS, cwd: Path, path: string)
  {
    IsFile(fs, Resolve(cwd, JoinText(path, "package.json"))) && IsFile(fs, Resolve(cwd, JoinText(path, "plugins.json")))
  }

  /** In a well-formed tree a valid library is a folder holding both files. */
  lemma ValidIsFolder(fs: FS, cwd: Path, path: string)
    requires WellFormed(fs)
    ensures IsValidComponentLibrary(fs, cwd, path) <==>
      IsFile(fs, Resolve(cwd, path) + ["package.json"]) && IsFile(fs, Resolve(cwd, path) + ["plugins.json"])
    ensures IsValidComponentLibrary(fs, cwd, path) ==> IsDir(fs, Resolve(cwd, path))
  {
    PartsPlain("package.json");
    PartsPlain("plugins.json");
    ResolveJoin(cwd, path, "package.json");
    ResolveJoin(cwd, path, "plugins.json");
    var p := Resolve(cwd, path) + ["package.json"];
    assert Parent(p) == Resolve(cwd, path);
  }

  /** Calling the module-level `get_library_path` with one argument, as
      `get_library_info` does, leaves `lib_name` missing. */
  const MissingLibName := "get_library_path() missing 1 required positional argument: 'lib_name'"

  /** `get_library_info(lib_name_or_path, only_registered)`: the `package.json` of a
      library. */
  function GetLibraryInfo(fs: FS, cwd: Path, json5: JsonCodec, lib: string, onlyRegistered: bool): (r: Result<Value>)
    ensures !IsValidComponentLibrary(fs, cwd, lib) && onlyRegistered ==> r == Err(TypeError(MissingLibName))
    ensures !IsValidComponentLibrary(fs, cwd, lib) && !onlyRegistered ==>
      r == Err(ValueError("Path '" + lib + "' is not a valid library"))
    ensures IsValidComponentLibrary(fs, cwd, lib) && (!onlyRegistered || IsDir(fs, Resolve(cwd, lib))) ==>
      r == LoadJson(fs, json5, Resolve(cwd, JoinText(lib, "package.json")))
  {
    if onlyRegistered then
      if !IsValidComponentLibrary(fs, cwd, lib) then Err(TypeError(MissingLibName))
      else if !IsDir(fs, Resolve(cwd, lib)) then Err(ValueError("Library '" + lib + "' is not a valid library"))
      else LoadJson(fs, json5, Resolve(cwd, JoinText(lib, "package.json")))
    else if IsValidComponentLibrary(fs, cwd, lib) then LoadJson(fs, json5, Resolve(cwd, JoinText(lib, "package.json")))
    else Err(ValueError("Path '" + lib + "' is not a valid library"))
  }

  /** In a well-formed tree `only_registered` makes no difference for a valid library. */
  lemma InfoIgnoresFlag(fs: FS, cwd: Path, json5: JsonCodec, lib: string)
    requires WellFormed(fs) && IsValidComponentLibrary(fs, cwd, lib)
    ensures GetLibraryInfo(fs, cwd, json5, lib, true) == GetLibraryInfo(fs, cwd, json5, lib, false)
  {
    ValidIsFolder(fs, cwd, lib);
  }

  /** `get_library_info` with the lookup going through the class, as `get_plugin_info`
      does: a registered name is resolved to its path. */
  function GetLibraryInfoFixed(fs: FS, cwd: Path, json5: JsonCodec, reg: string, names: seq<string>, lib: string, onlyRegistered: bool): (r: Result<Value>)
    ensures !onlyRegistered ==> r == GetLibraryInfo(fs, cwd, json5, lib, false)
    ensures onlyRegistered && IsValidComponentLibrary(fs, cwd, lib) ==> r == GetLibraryInfo(fs, cwd, json5, lib, true)
    ensures onlyRegistered && !IsValidComponentLibrary(fs, cwd, lib) && GetLibraryPathSpec(fs, cwd, json5, reg, names, lib).Err? ==>
      r == Err(GetLibraryPathSpec(fs, cwd, json5, reg, names, lib).error)
  {
    if !onlyRegistered then GetLibraryInfo(fs, cwd, json5, lib, false)
    else
      var path :- if IsValidComponentLibrary(fs, cwd, lib) then Ok(Str(lib)) else GetLibraryPathSpec(fs, cwd, json5, reg, names, lib);
      var p :- AsString(path);
      if !IsDir(fs, Resolve(cwd, lib)) && !IsDir(fs, Resolve(cwd, p)) then Err(ValueError("Library '" + lib + "' is not a valid library"))
      else LoadJson(fs, json5, Resolve(cwd, JoinText(p, "package.json")))
  }

  /** A registered library folder whose name is not itself a library path: as written
      the call with one argument raises before the registry is consulted; fixed, its
      `package.json` is read. */
  lemma RegisteredNameInfo(fs: FS, cwd: Path, json5: JsonCodec, reg: string, names: seq<string>, lib: string, p: string)
    requires WellFormed(fs) && !IsValidComponentLibrary(fs, cwd, lib)
    requires GetLibraryPathSpec(fs, cwd, json5, reg, names, lib) == Ok(Str(p)) && IsValidComponentLibrary(fs, cwd, p)
    ensures GetLibraryInfo(fs, cwd, json5, lib, true) == Err(TypeError(MissingLibName))
    ensures GetLibraryInfoFixed(fs, cwd, json5, reg, names, lib, true) == LoadJson(fs, json5, Resolve(cwd, JoinText(p, "package.json")))
  {
    ValidIsFolder(fs, cwd, p);
  }

  // ---------------------------------------------------------------------------
  // list_component_libraries

  /** One iteration of the loop of `list_component_libraries`; pointers are read with
      `json`, not `json5`. */
  function LibsStep(fs: FS, cwd: Path, json: JsonCodec, reg: string, n: string, libs: seq<string>): (r: Result<seq<string>>)
    ensures IsIgnored(n) ==> r == Ok(libs)
    ensures !IsIgnored(n) && IsDir(fs, Resolve(cwd, JoinText(reg, n))) ==>
      r == Ok(if IsValidComponentLibrary(fs, cwd, JoinText(reg, n)) then libs + [JoinText(reg, n)] else libs)
    ensures r.Ok? ==> (r.value == libs || exists l :: r.value == libs + [l] && IsValidComponentLibrary(fs, cwd, l))
  {
    if IsIgnored(n) then Ok(libs)
    else
      var full := JoinText(reg, n);
      if IsDir(fs, Resolve(cwd, full)) then
        Ok(if IsValidComponentLibrary(fs, cwd, full) then libs + [full] else libs)
      else if EndsWith(n, ".json") then
        var s :- LoadJson(fs, json, Resolve(cwd, full));
        var lib :- GetItem(s, "Path");
        var l :- AsString(lib);
        Ok(if IsDir(fs, Resolve(cwd, l)) && IsValidComponentLibrary(fs, cwd, l) then libs + [l] else libs)
      else Ok(libs)
  }

  /** The loop over the remaining entries. */
  function LibsFrom(fs: FS, cwd: Path, json: JsonCodec, reg: string, names: seq<string>, libs: seq<string>): Result<seq<string>>
    decreases |names|
  {
    if names == [] then Ok(libs)
    else
      var l1 :- LibsStep(fs, cwd, json, reg, names[0], libs);
      LibsFrom(fs, cwd, json, reg, names[1..], l1)
  }

  /** `list_component_libraries()`; `ignore_csbenchlab` is not used by the source. */
  function ListComponentLibrariesSpec(fs: FS, cwd: Path, json: JsonCodec, reg: string, names: seq<string>): Result<seq<string>>
  {
    match ListDirCheck(fs, Resolve(cwd, reg))
    case Fail(e) => Err(e)
    case Pass => LibsFrom(fs, cwd, json, reg, names, [])
  }

  method ListComponentLibraries(fs: FS, cwd: Path, json: JsonCodec, reg: string, names: seq<string>) returns (r: Result<seq<string>>)
    ensures r == ListComponentLibrariesSpec(fs, cwd, json, reg, names)
  {
    var c := ListDirCheck(fs, Resolve(cwd, reg));
    if c.Fail? {
      return Err(c.error);
    }
    var libs: seq<string> := [];
    var i := 0;
    while i < |names|
      invariant 0 <= i <= |names|
      invariant LibsFrom(fs, cwd, json, reg, names[i..], libs) == LibsFrom(fs, cwd, json, reg, names, [])
    {
      assert names[i..][0] == names[i] && names[i..][1..] == names[i + 1..];
      var step := LibsStep(fs, cwd, json, reg, names[i], libs);
      if step.Err? {
        return Err(step.error);
      }
      libs := step.value;
      i := i + 1;
    }
    assert names[i..] == [];
    r := Ok(libs);
  }

  /** Every path listed is a valid library, and the list only grows. */
  lemma {:induction false} ListedAreValid(fs: FS, cwd: Path, json: JsonCodec, reg: string, names: seq<string>, libs: seq<string>)
    requires LibsFrom(fs, cwd, json, reg, names, libs).Ok?
    ensures var r := LibsFrom(fs, cwd, json, reg, names, libs).value;
      |libs| <= |r| && r[..|libs|] == libs && forall j :: |libs| <= j < |r| ==> IsValidComponentLibrary(fs, cwd, r[j])
    decreases |names|
  {
    if names != [] {
      var l1 := LibsStep(fs, cwd, json, reg, names[0], libs).value;
      ListedAreValid(fs, cwd, json, reg, names[1..], l1);
      var r := LibsFrom(fs, cwd, json, reg, names[1..], l1).value;
      assert r[..|l1|] == l1;
      assert r[..|libs|] == l1[..|libs|];
      forall j | |libs| <= j < |r| ensures IsValidComponentLibrary(fs, cwd, r[j]) {
        if j < |l1| {
          assert r[j] == l1[j];
        }
      }
    }
  }

  /** Every valid library folder in the registry is listed. */
  lemma {:induction false} ValidFoldersListed(fs: FS, cwd: Path, json: JsonCodec, reg: string, names: seq<string>, libs: seq<string>, n: string)
    requires LibsFrom(fs, cwd, json, reg, names, libs).Ok?
    requires n in names && !IsIgnored(n) && IsDir(fs, Resolve(cwd, JoinText(reg, n)))
    requires IsValidComponentLibrary(fs, cwd, JoinText(reg, n))
    ensures JoinText(reg, n) in LibsFrom(fs, cwd, json, reg, names, libs).value
    decreases |names|
  {
    var l1 := LibsStep(fs, cwd, json, reg, names[0], libs).value;
    ListedAreValid(fs, cwd, json, reg, names[1..], l1);
    var r := LibsFrom(fs, cwd, json, reg, names[1..], l1).value;
    if names[0] == n {
      assert l1[|l1| - 1] == JoinText(reg, n);
      assert r[|l1| - 1] == l1[|l1| - 1];
    } else {
      assert n in names[1..];
      ValidFoldersListed(fs, cwd, json, reg, names[1..], l1, n);
    }
  }

  // ---------------------------------------------------------------------------
  // the stubs

  /** `refresh_component_library(lib_name)` as written: the module-level
      `get_library_path` is called with one argument, which raises before the library
      is looked up. */
  function RefreshComponentLibrary(lib: string): (r: Outcome)
    ensures r.Fail? && r.error.TypeError?
  {
    Fail(TypeError(MissingLibName))
  }

  /** As written no library, registered or not, reaches the check; fixed, a registered
      valid library reaches the `NotImplementedError`. */
  lemma RefreshNeverLooksUp(fs: FS, cwd: Path, json5: JsonCodec, reg: string, names: seq<string>, lib: string, p: string)
    requires GetLibraryPathSpec(fs, cwd, json5, reg, names, lib) == Ok(Str(p)) && IsValidComponentLibrary(fs, cwd, p)
    ensures !RefreshComponentLibrary(lib).error.NotImplementedError?
    ensures RefreshComponentLibraryFixed(fs, cwd, json5, reg, names, lib).error.NotImplementedError?
  {
  }

  /** `refresh_component_library(lib_name)` with the lookup going through the class:
      the library is looked up and checked, then `NotImplementedError` is raised in
      any case. */
  function RefreshComponentLibraryFixed(fs: FS, cwd: Path, json5: JsonCodec, reg: string, names: seq<string>, lib: string): (r: Outcome)
    ensures r.Fail?
    ensures GetLibraryPathSpec(fs, cwd, json5, reg, names, lib).Err? ==>
      r == Fail(GetLibraryPathSpec(fs, cwd, json5, reg, names, lib).error)
    ensures GetLibraryPathSpec(fs, cwd, json5, reg, names, lib).Ok? && GetLibraryPathSpec(fs, cwd, json5, reg, names, lib).value.Str? ==>
      var p := GetLibraryPathSpec(fs, cwd, json5, reg, names, lib).value.s;
      (IsValidComponentLibrary(fs, cwd, p) <==> r.error.NotImplementedError?)
  {
    match GetLibraryPathSpec(fs, cwd, json5, reg, names, lib)
    case Err(e) => Fail(e)
    case Ok(p) =>
      match AsString(p)
      case Err(e) => Fail(e)
      case Ok(path) =>
        if !IsValidComponentLibrary(fs, cwd, path) then Fail(ValueError("Library '" + lib + "' is not a valid library"))
        else Fail(NotImplementedError("Function refresh_component_library is not yet implemented"))
  }

  /** `register_component_library(path, link_register, ask_dialog)` always raises. */
  function RegisterComponentLibrary(path: string, linkRegister: bool, askDialog: bool): (r: Outcome)
    ensures r.Fail? && r.error.NotImplementedError?
  {
    Fail(NotImplementedError("Function register_component_library is not yet implemented"))
  }

  /** `get_or_create_component_library(lib_name, close_after_creation)` raises before
      the rest of its body. */
  function GetOrCreateComponentLibrary(lib: string, closeAfterCreation: bool): (r: Outcome)
    ensures r.Fail? && r.error.NotImplementedError?
  {
    Fail(NotImplementedError("Function get_or_create_component_library is not yet implemented"))
  }
}

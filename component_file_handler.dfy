/** The editor's side-file handler: where a component's declared side files live, whether
    any of them exists, their duplication with the component Id substituted, and seeding
    a missing file from its descriptor's template. */
module ComponentFileHandler {
  import opened Wrappers
  import opened Strings
  import opened Values
  import opened FileSystem
  import opened ComponentDataDesc
  import ControllerDataDesc
  import SystemDataDesc
  import ScenarioDataDesc
  import MetricDataDesc

  /** The names of a descriptor's `files`, in declaration order. */
  function DescFiles(d: DescClass): (r: seq<string>)
    ensures forall i :: 0 <= i < |r| ==> r[i] != ""
    ensures forall i, j :: 0 <= i < j < |r| ==> r[i] != r[j]
  {
    match d
    case ControllerDesc => ControllerDataDesc.FileNames
    case SystemDesc => SystemDataDesc.FileNames
    case ScenarioDesc => ScenarioDataDesc.FileNames
    case MetricDesc => MetricDataDesc.FileNames
  }

  /** `desc.files[name](component)`. */
  function DescGenerate(d: DescClass, name: string, comp: Value): (r: Option<string>)
    ensures r.Some? <==> name in DescFiles(d)
  {
    match d
    case ControllerDesc => ControllerDataDesc.Generate(name, comp)
    case SystemDesc => SystemDataDesc.Generate(name, comp)
    case ScenarioDesc => ScenarioDataDesc.Generate(name, comp)
    case MetricDesc => MetricDataDesc.Generate(name, comp)
  }

  /** A component's Id, once its folder resolved. */
  predicate HasStrId(comp: Value)
  {
    comp.Dict? && HasKey(comp.entries, "Id") && Lookup(comp.entries, "Id").value.Str?
  }

  function IdOf(comp: Value): string
    requires HasStrId(comp)
  {
    Lookup(comp.entries, "Id").value.s
  }

  /** The folder a component's side files live in: `<folder>/<Id>` for a standalone type
      and `<folder>/<destination>/<Id>` for an embedded one. An unknown type is a
      `KeyError` of the type table. */
  function ComponentDir(folder: Path, comp: Value): (r: Result<Path>)
    ensures r.Ok? ==> HasStrId(comp) && GetItem(comp, "ComponentType").Ok? && TableLookup(GetItem(comp, "ComponentType").value).Ok?
    ensures r.Ok? ==>
      var t := TableLookup(GetItem(comp, "ComponentType").value).value;
      r.value == Join(if Desc(t).standalone then folder else JoinAll(folder, Desc(t).destinationPath), IdOf(comp))
  {
    var ctype :- GetItem(comp, "ComponentType");
    var t :- TableLookup(ctype);
    var id :- GetItem(comp, "Id");
    var s :- AsString(id);
    if Desc(t).standalone then Ok(Join(folder, s))
    else Ok(Join(JoinAll(folder, Desc(t).destinationPath), s))
  }

  /** `resolve_file_path(folder, component, file_name)`: the type is read first; a
      component without a descriptor, or a name its descriptor does not declare, raises. */
  function ResolveFilePath(desc: Option<DescClass>, folder: Path, comp: Value, fileName: string): (r: Result<Path>)
    ensures r.Ok? ==> desc.Some? && fileName in DescFiles(desc.value)
    ensures r.Ok? ==> ComponentDir(folder, comp).Ok? && r.value == ComponentDir(folder, comp).value + [fileName]
    ensures desc.Some? && fileName in DescFiles(desc.value) ==>
      (r.Ok? <==> ComponentDir(folder, comp).Ok?) && (r.Err? ==> r.error == ComponentDir(folder, comp).error)
    ensures desc.None? && GetItem(comp, "ComponentType").Ok? ==> r.Err?
  {
    var ctype :- GetItem(comp, "ComponentType");
    if desc.None? then Err(Exception("Cannot open file '" + fileName + "'. Component has no files"))
    else if fileName !in DescFiles(desc.value) then
      Err(Exception("Cannot open file '" + fileName + "'. File does not exist for component"))
    else
      var dir :- ComponentDir(folder, comp);
      Ok(Join(dir, fileName))
  }

  /** The search of `has_files` from the `i`-th declared name on. */
  function HasFilesFrom(fs: FS, d: DescClass, folder: Path, comp: Value, names: seq<string>): (r: Result<bool>)
    decreases |names|
  {
    if names == [] then Ok(false)
    else match ResolveFilePath(Some(d), folder, comp, names[0])
      case Err(e) => Err(e)
      case Ok(p) => if p in fs then Ok(true) else HasFilesFrom(fs, d, folder, comp, names[1..])
  }

  /** `has_files(component)`. */
  function HasFilesSpec(fs: FS, desc: Option<DescClass>, folder: Path, comp: Value): (r: Result<bool>)
  {
    if desc.None? || DescFiles(desc.value) == [] then Ok(false)
    else HasFilesFrom(fs, desc.value, folder, comp, DescFiles(desc.value))
  }

  /** One entry of the declared names exists at the component's folder. */
  predicate SomeFileExists(fs: FS, dir: Path, names: seq<string>)
  {
    exists i :: 0 <= i < |names| && dir + [names[i]] in fs
  }

  lemma {:induction false} HasFilesFromSpec(fs: FS, d: DescClass, folder: Path, comp: Value, names: seq<string>)
    requires forall i :: 0 <= i < |names| ==> names[i] in DescFiles(d)
    ensures names != [] && ComponentDir(folder, comp).Err? ==> HasFilesFrom(fs, d, folder, comp, names) == Err(ComponentDir(folder, comp).error)
    ensures ComponentDir(folder, comp).Ok? ==>
      HasFilesFrom(fs, d, folder, comp, names) == Ok(SomeFileExists(fs, ComponentDir(folder, comp).value, names))
    decreases |names|
  {
    if names != [] {
      HasFilesFromSpec(fs, d, folder, comp, names[1..]);
      if ComponentDir(folder, comp).Ok? {
        var dir := ComponentDir(folder, comp).value;
        if SomeFileExists(fs, dir, names[1..]) {
          var i :| 0 <= i < |names[1..]| && dir + [names[1..][i]] in fs;
          assert dir + [names[i + 1]] in fs;
        }
        if SomeFileExists(fs, dir, names) && dir + [names[0]] !in fs {
          var i :| 0 <= i < |names| && dir + [names[i]] in fs;
          assert dir + [names[1..][i - 1]] in fs;
        }
      }
    }
  }

  /** `has_files` is false without a descriptor or declared files, an error when the
      component's folder cannot be resolved, and otherwise true exactly when some declared
      file exists. */
  lemma HasFilesMeaning(fs: FS, desc: Option<DescClass>, folder: Path, comp: Value)
    ensures desc.None? || DescFiles(desc.value) == [] ==> HasFilesSpec(fs, desc, folder, comp) == Ok(false)
    ensures desc.Some? && DescFiles(desc.value) != [] && ComponentDir(folder, comp).Err? ==>
      HasFilesSpec(fs, desc, folder, comp) == Err(ComponentDir(folder, comp).error)
    ensures desc.Some? && ComponentDir(folder, comp).Ok? ==>
      HasFilesSpec(fs, desc, folder, comp) == Ok(SomeFileExists(fs, ComponentDir(folder, comp).value, DescFiles(desc.value)))
  {
    if desc.Some? && DescFiles(desc.value) != [] {
      HasFilesFromSpec(fs, desc.value, folder, comp, DescFiles(desc.value));
    }
  }

  /** One file of `duplicate_files`: when the source exists, the destination's folder is
      created if missing, and the source text with the old Id replaced is written. */
  function CopyReplacing(fs: FS, full: Path, dest: Path, oldId: string, newId: string): (r: (FS, Outcome))
    ensures full !in fs ==> r == (fs, Pass)
    ensures r.1 == Pass && full in fs ==> IsFile(fs, full) && dest in r.0 && r.0[dest] == File(Replace(fs[full].text, oldId, newId))
    ensures forall q :: q in fs && q != dest ==> q in r.0 && r.0[q] == fs[q]
    ensures r.0.Keys <= fs.Keys + Ancestors(Dirname(dest)) + {dest}
  {
    MakeDirsSpec(fs, Dirname(dest));
    if full !in fs then (fs, Pass)
    else match MakeDirsIfMissing(fs, Dirname(dest))
      case Err(e) => (fs, Fail(e))
      case Ok(fs1) =>
        match ReadText(fs1, full)
        case Err(e) => (fs1, Fail(e))
        case Ok(t) =>
          match WriteText(fs1, dest, Replace(t, oldId, newId))
          case Err(e) => (fs1, Fail(e))
          case Ok(fs2) => (fs2, Pass)
  }

  /** One iteration of the `duplicate_files` loop. */
  function DuplicateStep(fs: FS, d: DescClass, folder: Path, comp: Value, newComp: Value, newFolder: Path, f: string): (r: (FS, Outcome))
  {
    match ResolveFilePath(Some(d), folder, comp, f)
    case Err(e) => (fs, Fail(e))
    case Ok(full) =>
      match ResolveFilePath(Some(d), newFolder, newComp, f)
      case Err(e) => (fs, Fail(e))
      case Ok(dest) => CopyReplacing(fs, full, dest, IdOf(comp), IdOf(newComp))
  }

  function DuplicateLoop(fs: FS, d: DescClass, folder: Path, comp: Value, newComp: Value, newFolder: Path, names: seq<string>): (r: (FS, Outcome))
    decreases |names|
  {
    if names == [] then (fs, Pass)
    else
      var s := DuplicateStep(fs, d, folder, comp, newComp, newFolder, names[0]);
      if s.1.Fail? then s else DuplicateLoop(s.0, d, folder, comp, newComp, newFolder, names[1..])
  }

  /** The `duplicate_files` loop after name `i` was handled with result `s`: a failure
      ends the whole loop, a success leaves the rest of the names. */
  lemma DuplicateLoopAdvance(fs0: FS, fsi: FS, d: DescClass, folder: Path, comp: Value, newComp: Value, newFolder: Path,
                             names: seq<string>, i: nat, s: (FS, Outcome))
    requires i < |names|
    requires DuplicateLoop(fs0, d, folder, comp, newComp, newFolder, names) ==
      DuplicateLoop(fsi, d, folder, comp, newComp, newFolder, names[i..])
    requires DuplicateStep(fsi, d, folder, comp, newComp, newFolder, names[i]) == s
    ensures s.1.Fail? ==> DuplicateLoop(fs0, d, folder, comp, newComp, newFolder, names) == s
    ensures s.1.Pass? ==>
      DuplicateLoop(fs0, d, folder, comp, newComp, newFolder, names) == DuplicateLoop(s.0, d, folder, comp, newComp, newFolder, names[i + 1..])
  {
    assert names[i..][0] == names[i] && names[i..][1..] == names[i + 1..];
  }

  /** `duplicate_files(component, new_component, new_folder_path)`: the new component
      must have an Id, and a handler without a descriptor has no `files`. */
  function DuplicateFilesSpec(fs: FS, desc: Option<DescClass>, folder: Path, comp: Value, newComp: Value, newFolder: Path): (r: (FS, Outcome))
  {
    match In("Id", newComp)
    case Err(e) => (fs, Fail(e))
    case Ok(b) =>
      if !b then (fs, Fail(ValueError("Component must have 'Id' field")))
      else if desc.None? then (fs, Fail(AttributeError("files")))
      else DuplicateLoop(fs, desc.value, folder, comp, newComp, newFolder, DescFiles(desc.value))
  }

  /** The destinations of the declared names in a folder. */
  function Dests(dd: Path, names: seq<string>): set<Path>
  {
    set f | f in names :: dd + [f]
  }

  /** Duplication changes no entry outside the destinations. */
  lemma {:induction false} DuplicateLoopFrame(fs: FS, d: DescClass, folder: Path, comp: Value, newComp: Value, newFolder: Path, names: seq<string>, dd: Path)
    requires ComponentDir(newFolder, newComp) == Ok(dd)
    ensures var r := DuplicateLoop(fs, d, folder, comp, newComp, newFolder, names);
      forall q :: q in fs && q !in Dests(dd, names) ==> q in r.0 && r.0[q] == fs[q]
    decreases |names|
  {
    if names != [] {
      var s := DuplicateStep(fs, d, folder, comp, newComp, newFolder, names[0]);
      if s.1.Pass? {
        DuplicateLoopFrame(s.0, d, folder, comp, newComp, newFolder, names[1..], dd);
        forall q | q in fs && q !in Dests(dd, names)
          ensures q in DuplicateLoop(fs, d, folder, comp, newComp, newFolder, names).0
        {
          assert names[0] in names;
          assert q !in Dests(dd, names[1..]);
        }
      }
    }
  }

  /** A file of one folder is neither a file of another folder apart from it nor one of
      that folder's ancestors. */
  lemma ApartPaths(sd: Path, dd: Path, f: string, g: string)
    requires !IsPrefix(sd, dd) && !IsPrefix(dd, sd)
    ensures sd + [g] != dd + [f] && sd + [g] !in Ancestors(dd)
  {
    if |sd| == |dd| {
      assert dd[..|sd|] == dd && (sd + [g])[..|sd|] == sd && (dd + [f])[..|sd|] == dd;
    }
    forall i | 0 <= i <= |dd| ensures dd[..i] != sd + [g] {
      if i == |sd| + 1 {
        assert dd[..i][..|sd|] == dd[..|sd|] && (sd + [g])[..|sd|] == sd;
      }
    }
  }

  /** One step keeps the source files as they were when the two folders are apart. */
  lemma StepKeepsSources(fs: FS, d: DescClass, folder: Path, comp: Value, newComp: Value, newFolder: Path, f: string, sd: Path, dd: Path, g: string)
    requires ComponentDir(folder, comp) == Ok(sd) && ComponentDir(newFolder, newComp) == Ok(dd)
    requires !IsPrefix(sd, dd) && !IsPrefix(dd, sd)
    ensures var s := DuplicateStep(fs, d, folder, comp, newComp, newFolder, f);
      (sd + [g] in s.0 <==> sd + [g] in fs) && (sd + [g] in fs ==> s.0[sd + [g]] == fs[sd + [g]])
  {
    if f in DescFiles(d) {
      ApartPaths(sd, dd, f, g);
      assert Dirname(dd + [f]) == dd;
      var c := CopyReplacing(fs, sd + [f], dd + [f], IdOf(comp), IdOf(newComp));
      assert DuplicateStep(fs, d, folder, comp, newComp, newFolder, f) == c;
    }
  }

  /** With the two folders apart, every declared file present at the source ends up at the
      destination with the old Id replaced by the new one. */
  lemma {:induction false} DuplicateLoopWrites(fs: FS, d: DescClass, folder: Path, comp: Value, newComp: Value, newFolder: Path, names: seq<string>, sd: Path, dd: Path)
    requires ComponentDir(folder, comp) == Ok(sd) && ComponentDir(newFolder, newComp) == Ok(dd)
    requires !IsPrefix(sd, dd) && !IsPrefix(dd, sd)
    requires forall i :: 0 <= i < |names| ==> names[i] in DescFiles(d)
    requires forall i, j :: 0 <= i < j < |names| ==> names[i] != names[j]
    ensures var r := DuplicateLoop(fs, d, folder, comp, newComp, newFolder, names);
      r.1 == Pass ==> forall f :: f in names && sd + [f] in fs ==>
        fs[sd + [f]].File? && dd + [f] in r.0 && r.0[dd + [f]] == File(Replace(fs[sd + [f]].text, IdOf(comp), IdOf(newComp)))
    decreases |names|
  {
    if names != [] {
      var f0, rest := names[0], names[1..];
      var a, b := IdOf(comp), IdOf(newComp);
      var s := DuplicateStep(fs, d, folder, comp, newComp, newFolder, f0);
      assert s == CopyReplacing(fs, sd + [f0], dd + [f0], a, b);
      var r := DuplicateLoop(fs, d, folder, comp, newComp, newFolder, names);
      if s.1.Pass? && r.1 == Pass {
        assert r == DuplicateLoop(s.0, d, folder, comp, newComp, newFolder, rest);
        DuplicateLoopWrites(s.0, d, folder, comp, newComp, newFolder, rest, sd, dd);
        DuplicateLoopFrame(s.0, d, folder, comp, newComp, newFolder, rest, dd);
        forall f | f in names && sd + [f] in fs
          ensures fs[sd + [f]].File? && dd + [f] in r.0 && r.0[dd + [f]] == File(Replace(fs[sd + [f]].text, a, b))
        {
          StepKeepsSources(fs, d, folder, comp, newComp, newFolder, f0, sd, dd, f);
          if f == f0 {
            assert dd + [f0] in s.0 && s.0[dd + [f0]] == File(Replace(fs[sd + [f0]].text, a, b));
            assert dd + [f0] !in Dests(dd, rest);
          } else {
            assert f in rest;
          }
        }
      }
    }
  }

  /** `duplicate_files` with resolvable folders that lie apart: a handler without a
      descriptor fails before touching anything; otherwise only the declared files'
      destinations (and their missing parent folders) change, and on success each declared
      file found at the source is at the destination with the Id substituted. A new
      component without an Id is refused before anything happens. */
  lemma DuplicateFilesEffect(fs: FS, desc: Option<DescClass>, folder: Path, comp: Value, newComp: Value, newFolder: Path, sd: Path, dd: Path)
    requires ComponentDir(folder, comp) == Ok(sd) && ComponentDir(newFolder, newComp) == Ok(dd)
    requires !IsPrefix(sd, dd) && !IsPrefix(dd, sd)
    ensures var r := DuplicateFilesSpec(fs, desc, folder, comp, newComp, newFolder);
      desc.None? ==> r == (fs, Fail(AttributeError("files")))
    ensures var r := DuplicateFilesSpec(fs, desc, folder, comp, newComp, newFolder);
      desc.Some? ==> forall q :: q in fs && q !in Dests(dd, DescFiles(desc.value)) ==> q in r.0 && r.0[q] == fs[q]
    ensures var r := DuplicateFilesSpec(fs, desc, folder, comp, newComp, newFolder);
      desc.Some? && r.1 == Pass ==> forall f :: f in DescFiles(desc.value) && sd + [f] in fs ==>
        fs[sd + [f]].File? && dd + [f] in r.0 && r.0[dd + [f]] == File(Replace(fs[sd + [f]].text, IdOf(comp), IdOf(newComp)))
  {
    if desc.Some? {
      DuplicateLoopFrame(fs, desc.value, folder, comp, newComp, newFolder, DescFiles(desc.value), dd);
      DuplicateLoopWrites(fs, desc.value, folder, comp, newComp, newFolder, DescFiles(desc.value), sd, dd);
    }
  }

  lemma DuplicateFilesNeedsId(fs: FS, desc: Option<DescClass>, folder: Path, comp: Value, newComp: Value, newFolder: Path)
    requires newComp.Dict? && !HasKey(newComp.entries, "Id")
    ensures DuplicateFilesSpec(fs, desc, folder, comp, newComp, newFolder) == (fs, Fail(ValueError("Component must have 'Id' field")))
  {
  }

  /** `open_file(component, file_name)`: a missing file is seeded from the descriptor's
      generator; an existing one is left as it is. */
  function OpenFileSpec(fs: FS, desc: Option<DescClass>, folder: Path, comp: Value, fileName: string): (r: (FS, Outcome))
    ensures ResolveFilePath(desc, folder, comp, fileName).Ok? && ResolveFilePath(desc, folder, comp, fileName).value in fs ==> r == (fs, Pass)
    ensures r.0 != fs ==>
      ResolveFilePath(desc, folder, comp, fileName).Ok? &&
      var p := ResolveFilePath(desc, folder, comp, fileName).value;
      p !in fs && r == (fs[p := File(DescGenerate(desc.value, fileName, comp).value)], Pass)
  {
    match ResolveFilePath(desc, folder, comp, fileName)
    case Err(e) => (fs, Fail(e))
    case Ok(p) =>
      if p in fs then (fs, Pass)
      else match WriteText(fs, p, DescGenerate(desc.value, fileName, comp).value)
        case Err(e) => (fs, Fail(e))
        case Ok(fs') => (fs', Pass)
  }

  /** `ComponentFileHandler(folder_path, data_desc_class)`. */
  class ComponentFileHandler {
    const folderPath: Path
    const desc: Option<DescClass>

    constructor (folderPath: Path, dataDescClass: Option<DescClass>)
      ensures this.folderPath == folderPath && desc == dataDescClass
    {
      this.folderPath := folderPath;
      desc := dataDescClass;
    }

    /** The file is seeded; opening it in an editor is not modelled. */
    method OpenFile(disk: Disk, comp: Value, fileName: string) returns (o: Outcome)
      modifies disk
      ensures (disk.fs, o) == OpenFileSpec(old(disk.fs), desc, folderPath, comp, fileName)
    {
      var p := ResolveFilePath(desc, folderPath, comp, fileName);
      if p.Err? {
        return Fail(p.error);
      }
      if p.value in disk.fs {
        return Pass;
      }
      o := disk.Write(p.value, DescGenerate(desc.value, fileName, comp).value);
    }

    method HasFiles(disk: Disk, comp: Value) returns (r: Result<bool>)
      ensures r == HasFilesSpec(disk.fs, desc, folderPath, comp)
    {
      if desc.None? || DescFiles(desc.value) == [] {
        return Ok(false);
      }
      var names := DescFiles(desc.value);
      var i := 0;
      assert names[0..] == names;
      while i < |names|
        invariant 0 <= i <= |names|
        invariant HasFilesSpec(disk.fs, desc, folderPath, comp) == HasFilesFrom(disk.fs, desc.value, folderPath, comp, names[i..])
      {
        assert names[i..][0] == names[i] && names[i..][1..] == names[i + 1..];
        var p := ResolveFilePath(desc, folderPath, comp, names[i]);
        if p.Err? {
          return Err(p.error);
        }
        if p.value in disk.fs {
          return Ok(true);
        }
        i := i + 1;
      }
      assert names[i..] == [];
      r := Ok(false);
    }

    /** One file of `duplicate_files`. */
    method CopyFile(disk: Disk, full: Path, dest: Path, oldId: string, newId: string) returns (o: Outcome)
      modifies disk
      ensures (disk.fs, o) == CopyReplacing(old(disk.fs), full, dest, oldId, newId)
    {
      o := Pass;
      if full in disk.fs {
        o := disk.MkdirIfMissing(Dirname(dest));
        if o.Fail? {
          return;
        }
        var text := ReadText(disk.fs, full);
        if text.Err? {
          return Fail(text.error);
        }
        o := disk.Write(dest, Replace(text.value, oldId, newId));
      }
    }

    /** One iteration of the `duplicate_files` loop. */
    method DuplicateOne(disk: Disk, comp: Value, newComp: Value, newFolder: Path, f: string) returns (o: Outcome)
      requires desc.Some?
      modifies disk
      ensures (disk.fs, o) == DuplicateStep(old(disk.fs), desc.value, folderPath, comp, newComp, newFolder, f)
    {
      var full := ResolveFilePath(desc, folderPath, comp, f);
      if full.Err? {
        return Fail(full.error);
      }
      var dest := ResolveFilePath(desc, newFolder, newComp, f);
      if dest.Err? {
        return Fail(dest.error);
      }
      o := CopyFile(disk, full.value, dest.value, IdOf(comp), IdOf(newComp));
    }

    method DuplicateFiles(disk: Disk, comp: Value, newComp: Value, newFolder: Path) returns (o: Outcome)
      modifies disk
      ensures (disk.fs, o) == DuplicateFilesSpec(old(disk.fs), desc, folderPath, comp, newComp, newFolder)
    {
      match In("Id", newComp)
      case Err(e) =>
        return Fail(e);
      case Ok(b) =>
        if !b {
          return Fail(ValueError("Component must have 'Id' field"));
        }
        if desc.None? {
          return Fail(AttributeError("files"));
        }
        assert DuplicateFilesSpec(disk.fs, desc, folderPath, comp, newComp, newFolder) ==
          DuplicateLoop(disk.fs, desc.value, folderPath, comp, newComp, newFolder, DescFiles(desc.value));
        o := DuplicateAll(disk, comp, newComp, newFolder, DescFiles(desc.value));
    }

    /** The loop of `duplicate_files` over the descriptor's file names. */
    method DuplicateAll(disk: Disk, comp: Value, newComp: Value, newFolder: Path, names: seq<string>) returns (o: Outcome)
      requires desc.Some?
      modifies disk
      ensures (disk.fs, o) == DuplicateLoop(old(disk.fs), desc.value, folderPath, comp, newComp, newFolder, names)
    {
      var i := 0;
      assert names[0..] == names;
      ghost var fs0 := disk.fs;
      o := Pass;
      while i < |names|
        invariant 0 <= i <= |names|
        invariant DuplicateLoop(fs0, desc.value, folderPath, comp, newComp, newFolder, names) ==
          DuplicateLoop(disk.fs, desc.value, folderPath, comp, newComp, newFolder, names[i..])
      {
        ghost var fsi := disk.fs;
        o := DuplicateOne(disk, comp, newComp, newFolder, names[i]);
        DuplicateLoopAdvance(fs0, fsi, desc.value, folderPath, comp, newComp, newFolder, names, i, (disk.fs, o));
        if o.Fail? {
          return;
        }
        i := i + 1;
      }
      assert names[i..] == [];
      o := Pass;
    }
  }
}

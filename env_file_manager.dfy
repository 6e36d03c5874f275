/** The older environment store. Each record type lives at a fixed path below the
    environment folder: one JSON file holding a list of records, a single document, or
    (for controllers) a folder with one `<Name>.json` file per record. */
module EnvFileManager {
  import opened Wrappers
  import opened Strings
  import opened Values
  import opened FileSystem
  import EnvironmentDataManager

  /** `str(v)` of a record's `Name` inside an f-string; `render` stands for `str` on the
      values whose rendering is not modelled (floats, containers). */
  function NameText(v: Value, render: Value -> string): (s: string)
    ensures v.Str? ==> s == v.s
    ensures v == Null ==> s == "None"
  {
    match PyStr(v)
    case Some(t) => t
    case None => render(v)
  }

  /** `f"{item.get('Name')}.json"`: the file a folder manager writes a record to; a
      record that is not a dict has no `get`. */
  function RecordFileName(item: Value, render: Value -> string): (r: Result<string>)
    ensures r.Ok? <==> item.Dict?
    ensures r.Ok? ==> EndsWith(r.value, ".json") && r.value != ""
    ensures item.Dict? && !HasKey(item.entries, "Name") ==> r == Ok("None.json")
    ensures item.Dict? && Lookup(item.entries, "Name").Some? && Lookup(item.entries, "Name").value.Str? ==>
      r == Ok(Lookup(item.entries, "Name").value.s + ".json")
  {
    match GetOr(item, "Name", Null)
    case Err(e) => Err(e)
    case Ok(v) =>
      var n := NameText(v, render) + ".json";
      assert n[|n| - 5..] == ".json";
      assert v == Null ==> n == "None" + ".json" == "None.json";
      Ok(n)
  }

  /** The names `path.glob("*.json")` finds directly inside a folder. */
  function JsonNames(fs: FS, dir: Path): (r: set<string>)
    ensures forall n :: n in r <==> n in Children(fs, dir) && EndsWith(n, ".json")
  {
    set n | n in Children(fs, dir) && EndsWith(n, ".json")
  }

  /** The order `glob` yields the `*.json` names in, which the operating system decides. */
  predicate IsJsonListing(fs: FS, dir: Path, names: seq<string>)
  {
    (forall i, j :: 0 <= i < j < |names| ==> names[i] != names[j]) &&
    (set n | n in names) == JsonNames(fs, dir)
  }

  /** An enlisted manager wraps a single object into a one-element list. */
  function Enlist(enlist: bool, v: Value): (r: Value)
    ensures enlist ==> r.List?
    ensures !enlist || v.List? ==> r == v
    ensures enlist && !v.List? ==> r == List([v])
  {
    if enlist && !v.List? then List([v]) else v
  }

  /** `_load_json5_file`: a missing file raises `FileNotFoundError`. */
  function LoadDoc(fs: FS, c: JsonCodec, enlist: bool, p: Path): (r: Result<Value>)
    ensures p !in fs ==> r == Err(FileNotFoundError(p))
    ensures r.Ok? ==> exists v :: LoadJson(fs, c, p) == Ok(v) && r.value == Enlist(enlist, v)
    ensures LoadJson(fs, c, p).Err? ==> r == LoadJson(fs, c, p)
  {
    match LoadJson(fs, c, p)
    case Err(e) => Err(e)
    case Ok(v) => Ok(Enlist(enlist, v))
  }

  /** The folder branch of `load`: the documents of the listed files, a list document
      contributing its items. */
  function FolderDocs(fs: FS, c: JsonCodec, dir: Path, names: seq<string>): (r: Result<seq<Value>>)
    decreases |names|
  {
    if names == [] then Ok([])
    else match LoadJson(fs, c, Join(dir, names[0]))
      case Err(e) => Err(e)
      case Ok(d) => PrefixResult(if d.List? then d.items else [d], FolderDocs(fs, c, dir, names[1..]))
  }

  lemma FolderDocsStep(fs: FS, c: JsonCodec, dir: Path, names: seq<string>, i: nat)
    requires i < |names|
    ensures FolderDocs(fs, c, dir, names[i..]) ==
      match LoadJson(fs, c, Join(dir, names[i]))
      case Err(e) => Err(e)
      case Ok(d) => PrefixResult(if d.List? then d.items else [d], FolderDocs(fs, c, dir, names[i + 1..]))
  {
    assert names[i..][0] == names[i] && names[i..][1..] == names[i + 1..];
  }

  /** A folder holding one file per listed record, each a single document, loads as
      those documents in listing order. */
  lemma {:induction false} FolderDocsSingles(fs: FS, c: JsonCodec, dir: Path, names: seq<string>, docs: seq<Value>)
    requires |docs| == |names|
    requires forall i :: 0 <= i < |names| ==> names[i] != "" && LoadJson(fs, c, dir + [names[i]]) == Ok(docs[i]) && !docs[i].List?
    ensures FolderDocs(fs, c, dir, names) == Ok(docs)
    decreases |names|
  {
    if names != [] {
      FolderDocsSingles(fs, c, dir, names[1..], docs[1..]);
      assert [docs[0]] + docs[1..] == docs;
    }
  }

  /** The files written by a folder save, with the names they got, or the error that
      stopped the loop. */
  function UnionResult(acc: set<string>, r: Result<set<string>>): (r': Result<set<string>>)
    ensures r'.Ok? <==> r.Ok?
    ensures r.Err? ==> r' == r
    ensures r.Ok? ==> r'.value == acc + r.value
  {
    if r.Err? then r else Ok(acc + r.value)
  }

  lemma UnionResultAssoc(a: set<string>, b: set<string>, r: Result<set<string>>)
    ensures UnionResult(a, UnionResult(b, r)) == UnionResult(a + b, r)
  {
    if r.Ok? {
      assert a + (b + r.value) == (a + b) + r.value;
    }
  }

  /** The writing loop of a folder save: each record goes to `<dir>/<Name>.json`, and the
      set of names written so far is kept. */
  function WriteItems(fs: FS, c: JsonCodec, dir: Path, items: seq<Value>, render: Value -> string): (r: (FS, Result<set<string>>))
    decreases |items|
  {
    if items == [] then (fs, Ok({}))
    else match RecordFileName(items[0], render)
      case Err(e) => (fs, Err(e))
      case Ok(n) =>
        var s := SaveJson(fs, c, Join(dir, n), items[0]);
        if s.1.Fail? then (s.0, Err(s.1.error))
        else
          var t := WriteItems(s.0, c, dir, items[1..], render);
          (t.0, UnionResult({n}, t.1))
  }

  /** One step of the writing loop: `item` is written, then `rest`. */
  function WriteCons(fs: FS, c: JsonCodec, dir: Path, item: Value, rest: seq<Value>, render: Value -> string): (r: (FS, Result<set<string>>))
  {
    match RecordFileName(item, render)
    case Err(e) => (fs, Err(e))
    case Ok(n) =>
      var s := SaveJson(fs, c, Join(dir, n), item);
      if s.1.Fail? then (s.0, Err(s.1.error))
      else
        var t := WriteItems(s.0, c, dir, rest, render);
        (t.0, UnionResult({n}, t.1))
  }

  lemma WriteItemsStep(fs: FS, c: JsonCodec, dir: Path, items: seq<Value>, render: Value -> string, j: nat)
    requires j < |items|
    ensures WriteItems(fs, c, dir, items[j..], render) == WriteCons(fs, c, dir, items[j], items[j + 1..], render)
  {
    assert items[j..][0] == items[j] && items[j..][1..] == items[j + 1..];
  }

  lemma WriteConsFail(fs: FS, c: JsonCodec, dir: Path, item: Value, rest: seq<Value>, render: Value -> string, n: string)
    requires RecordFileName(item, render) == Ok(n) && SaveJson(fs, c, Join(dir, n), item).1.Fail?
    ensures WriteCons(fs, c, dir, item, rest, render) == (SaveJson(fs, c, Join(dir, n), item).0, Err(SaveJson(fs, c, Join(dir, n), item).1.error))
  {
  }

  lemma WriteConsOk(fs: FS, c: JsonCodec, dir: Path, item: Value, rest: seq<Value>, render: Value -> string, n: string)
    requires RecordFileName(item, render) == Ok(n) && SaveJson(fs, c, Join(dir, n), item).1.Pass?
    ensures var t := WriteItems(SaveJson(fs, c, Join(dir, n), item).0, c, dir, rest, render);
      WriteCons(fs, c, dir, item, rest, render) == (t.0, UnionResult({n}, t.1))
  {
  }

  /** The record a name ends up holding: the last record with that file name. */
  function LastNamed(items: seq<Value>, n: string, render: Value -> string): (r: Option<Value>)
    decreases |items|
  {
    if items == [] then None
    else match LastNamed(items[1..], n, render)
      case Some(v) => Some(v)
      case None => if RecordFileName(items[0], render) == Ok(n) then Some(items[0]) else None
  }

  /** A successful writing loop writes only the files of the names it reports: every
      other entry keeps its value, and every written name is an entry. */
  lemma {:induction false} WriteItemsFrame(fs: FS, c: JsonCodec, dir: Path, items: seq<Value>, render: Value -> string)
    requires WriteItems(fs, c, dir, items, render).1.Ok?
    ensures var w := WriteItems(fs, c, dir, items, render);
      fs.Keys <= w.0.Keys &&
      (forall n :: n in w.1.value ==> dir + [n] in w.0) &&
      (forall q :: q in fs && (forall n :: n in w.1.value ==> q != dir + [n]) ==> w.0[q] == fs[q])
    decreases |items|
  {
    if items != [] {
      var n := RecordFileName(items[0], render).value;
      SaveJsonPass(fs, c, Join(dir, n), items[0]);
      var s := SaveJson(fs, c, Join(dir, n), items[0]);
      WriteItemsFrame(s.0, c, dir, items[1..], render);
    }
  }

  /** After a successful writing loop the folder's `*.json` names are the old ones plus
      the written ones. */
  lemma {:induction false} WriteItemsNames(fs: FS, c: JsonCodec, dir: Path, items: seq<Value>, render: Value -> string)
    requires WriteItems(fs, c, dir, items, render).1.Ok?
    ensures JsonNames(WriteItems(fs, c, dir, items, render).0, dir) == JsonNames(fs, dir) + WriteItems(fs, c, dir, items, render).1.value
    decreases |items|
  {
    if items != [] {
      var n := RecordFileName(items[0], render).value;
      SaveJsonPass(fs, c, Join(dir, n), items[0]);
      var s := SaveJson(fs, c, Join(dir, n), items[0]);
      ChildrenPut(fs, dir, n, File(c.dump(items[0])));
      WriteItemsNames(s.0, c, dir, items[1..], render);
    }
  }

  /** The names a writing loop reports are exactly the file names of its records. */
  lemma {:induction false} WriteItemsWritten(fs: FS, c: JsonCodec, dir: Path, items: seq<Value>, render: Value -> string)
    requires WriteItems(fs, c, dir, items, render).1.Ok?
    ensures forall n :: n in WriteItems(fs, c, dir, items, render).1.value <==> LastNamed(items, n, render).Some?
    decreases |items|
  {
    if items != [] {
      var n := RecordFileName(items[0], render).value;
      var s := SaveJson(fs, c, Join(dir, n), items[0]);
      WriteItemsWritten(s.0, c, dir, items[1..], render);
    }
  }

  /** Each written name holds the last record of that name, which JSON can encode. */
  lemma {:induction false} WriteItemsLast(fs: FS, c: JsonCodec, dir: Path, items: seq<Value>, render: Value -> string, m: string)
    requires WriteItems(fs, c, dir, items, render).1.Ok?
    requires m in WriteItems(fs, c, dir, items, render).1.value
    ensures LastNamed(items, m, render).Some? && JsonValue(LastNamed(items, m, render).value)
    ensures dir + [m] in WriteItems(fs, c, dir, items, render).0
    ensures WriteItems(fs, c, dir, items, render).0[dir + [m]] == File(c.dump(LastNamed(items, m, render).value))
    decreases |items|
  {
    var n := RecordFileName(items[0], render).value;
    SaveJsonPass(fs, c, Join(dir, n), items[0]);
    var s := SaveJson(fs, c, Join(dir, n), items[0]);
    var t := WriteItems(s.0, c, dir, items[1..], render);
    WriteItemsWritten(s.0, c, dir, items[1..], render);
    if m in t.1.value {
      WriteItemsLast(s.0, c, dir, items[1..], render, m);
    } else {
      assert m == n;
      WriteItemsFrame(s.0, c, dir, items[1..], render);
      assert dir + [m] in s.0;
    }
  }

  /** Every stale name left from before names a file, so `unlink` succeeds on all. */
  predicate StaleFiles(fs: FS, dir: Path, stale: set<string>)
  {
    forall n :: n in stale ==> IsFile(fs, dir + [n])
  }

  /** The records a save writes: a list's items, or the single document. */
  function ItemsOf(data: Value): (r: seq<Value>)
    ensures data.List? ==> r == data.items
    ensures !data.List? ==> r == [data]
  {
    if data.List? then data.items else [data]
  }

  /** A folder save up to the removal of stale files: the folder is created when
      missing, its `*.json` names are taken, and every record is written. The result is
      the stale names (found before, not written) and the written names. */
  function FolderWrite(fs: FS, c: JsonCodec, dir: Path, data: Value, render: Value -> string): (r: (FS, Result<(set<string>, set<string>)>))
  {
    match MakeDirsIfMissing(fs, dir)
    case Err(e) => (fs, Err(e))
    case Ok(fs1) =>
      var w := WriteItems(fs1, c, dir, ItemsOf(data), render);
      if w.1.Err? then (w.0, Err(w.1.error))
      else (w.0, Ok((JsonNames(fs1, dir) - w.1.value, w.1.value)))
  }

  /** The tree after a folder save whose stale files could all be removed. */
  function FolderSaved(fs: FS, c: JsonCodec, dir: Path, data: Value, render: Value -> string): (r: Option<FS>)
  {
    var w := FolderWrite(fs, c, dir, data, render);
    if w.1.Err? || !StaleFiles(w.0, dir, w.1.value.0) then None
    else Some(w.0 - Inside(dir, w.1.value.0))
  }

  /** A record whose file name `pathlib` joins as one name inside the folder. */
  predicate PlainRecordName(item: Value, render: Value -> string)
  {
    RecordFileName(item, render).Ok? ==> PlainName(RecordFileName(item, render).value)
  }

  /** After a folder save of records whose names are plain file names, the folder's
      `*.json` names are exactly the records' names: every stale file is gone and every
      record's file is there. */
  lemma FolderSavedNames(fs: FS, c: JsonCodec, dir: Path, data: Value, render: Value -> string)
    requires FolderSaved(fs, c, dir, data, render).Some?
    requires forall i :: 0 <= i < |ItemsOf(data)| ==> PlainRecordName(ItemsOf(data)[i], render)
    ensures forall n :: n in JsonNames(FolderSaved(fs, c, dir, data, render).value, dir) <==> LastNamed(ItemsOf(data), n, render).Some?
  {
    var fs1 := MakeDirsIfMissing(fs, dir).value;
    var w := WriteItems(fs1, c, dir, ItemsOf(data), render);
    WriteItemsNames(fs1, c, dir, ItemsOf(data), render);
    WriteItemsWritten(fs1, c, dir, ItemsOf(data), render);
    WriteItemsFrame(fs1, c, dir, ItemsOf(data), render);
    var stale := JsonNames(fs1, dir) - w.1.value;
    ChildrenRemove(w.0, dir, stale);
    var fs' := w.0 - Inside(dir, stale);
    forall n ensures n in JsonNames(fs', dir) <==> n in w.1.value {
      if n in w.1.value {
        ChildIn(w.0, dir, n);
      }
    }
  }

  /** After a folder save of records whose names are plain file names, each record's
      file holds the last record of that name. */
  lemma FolderSavedLastWins(fs: FS, c: JsonCodec, dir: Path, data: Value, render: Value -> string, n: string)
    requires FolderSaved(fs, c, dir, data, render).Some?
    requires forall i :: 0 <= i < |ItemsOf(data)| ==> PlainRecordName(ItemsOf(data)[i], render)
    requires LastNamed(ItemsOf(data), n, render).Some?
    ensures dir + [n] in FolderSaved(fs, c, dir, data, render).value
    ensures FolderSaved(fs, c, dir, data, render).value[dir + [n]] == File(c.dump(LastNamed(ItemsOf(data), n, render).value))
  {
    var fs1 := MakeDirsIfMissing(fs, dir).value;
    var w := WriteItems(fs1, c, dir, ItemsOf(data), render);
    WriteItemsWritten(fs1, c, dir, ItemsOf(data), render);
    WriteItemsLast(fs1, c, dir, ItemsOf(data), render, n);
    var stale := JsonNames(fs1, dir) - w.1.value;
    InsideMember(dir, stale, n);
  }

  /** One of the record managers of the older store, fixed at construction. */
  datatype ComponentDataManager = ComponentDataManager(relPath: Path, enlist: bool, asFolder: bool)
  {
    /** A folder manager never enlists. */
    ghost predicate Valid()
    {
      asFolder ==> !enlist
    }

    /** `load`: the file's document, or in folder mode the documents of every `*.json`
        file, `[]` when the folder is missing. */
    function LoadSpec(fs: FS, c: JsonCodec, envPath: Path, names: seq<string>): (r: Result<Value>)
    {
      var path := envPath + relPath;
      if !asFolder then LoadDoc(fs, c, enlist, path)
      else if !IsDir(fs, path) then Ok(List([]))
      else match FolderDocs(fs, c, path, names)
        case Err(e) => Err(e)
        case Ok(ds) => Ok(List(ds))
    }

    /** `save`: `None` when the result depends on the order in which stale files are
        removed, which happens only when one of them is a folder, and the save fails. */
    function SaveSpec(fs: FS, c: JsonCodec, envPath: Path, data: Value, render: Value -> string): (r: Option<(FS, Outcome)>)
    {
      var path := envPath + relPath;
      if !asFolder then Some(SaveJson(fs, c, path, Enlist(enlist, data)))
      else
        var w := FolderWrite(fs, c, path, data, render);
        if w.1.Err? then Some((w.0, Fail(w.1.error)))
        else match FolderSaved(fs, c, path, data, render)
          case Some(fs') => Some((fs', Pass))
          case None => None
    }

    method Load(disk: Disk, c: JsonCodec, envPath: Path, names: seq<string>) returns (r: Result<Value>)
      requires asFolder ==> IsJsonListing(disk.fs, envPath + relPath, names)
      ensures r == LoadSpec(disk.fs, c, envPath, names)
    {
      var path := envPath + relPath;
      if !asFolder {
        r := LoadDoc(disk.fs, c, enlist, path);
        return;
      }
      if !IsDir(disk.fs, path) {
        return Ok(List([]));
      }
      var all: seq<Value> := [];
      var i := 0;
      assert names[0..] == names;
      while i < |names|
        invariant 0 <= i <= |names|
        invariant FolderDocs(disk.fs, c, path, names) == PrefixResult(all, FolderDocs(disk.fs, c, path, names[i..]))
      {
        FolderDocsStep(disk.fs, c, path, names, i);
        var d := LoadJson(disk.fs, c, Join(path, names[i]));
        if d.Err? {
          return Err(d.error);
        }
        var ds := if d.value.List? then d.value.items else [d.value];
        assert FolderDocs(disk.fs, c, path, names[i..]) == PrefixResult(ds, FolderDocs(disk.fs, c, path, names[i + 1..]));
        PrefixResultAssoc(all, ds, FolderDocs(disk.fs, c, path, names[i + 1..]));
        all := all + ds;
        i := i + 1;
      }
      assert names[i..] == [] && all + [] == all;
      r := Ok(List(all));
    }

    method Save(disk: Disk, c: JsonCodec, envPath: Path, data: Value, render: Value -> string) returns (o: Outcome)
      modifies disk
      ensures var s := SaveSpec(old(disk.fs), c, envPath, data, render);
        if s.Some? then (disk.fs, o) == s.value else o.Fail?
    {
      var path := envPath + relPath;
      if !asFolder {
        o := disk.DumpJson(c, path, Enlist(enlist, data));
        return;
      }
      o := disk.MkdirIfMissing(path);
      if o.Fail? {
        return;
      }
      var existing := JsonNames(disk.fs, path);
      var w := WriteAll(disk, c, path, ItemsOf(data), render);
      if w.Err? {
        return Fail(w.error);
      }
      o := RemoveStale(disk, path, existing - w.value);
    }
  }

  /** The writing loop of a folder save. */
  method WriteAll(disk: Disk, c: JsonCodec, path: Path, items: seq<Value>, render: Value -> string) returns (w: Result<set<string>>)
    modifies disk
    ensures (disk.fs, w) == WriteItems(old(disk.fs), c, path, items, render)
  {
    ghost var fs1 := disk.fs;
    var written: set<string> := {};
    var j := 0;
    assert items[0..] == items;
    ghost var all := WriteItems(fs1, c, path, items, render).1;
    assert all.Ok? ==> {} + all.value == all.value;
    while j < |items|
      invariant 0 <= j <= |items|
      invariant var t := WriteItems(disk.fs, c, path, items[j..], render);
        WriteItems(fs1, c, path, items, render) == (t.0, UnionResult(written, t.1))
    {
      ghost var before := disk.fs;
      WriteItemsStep(before, c, path, items, render, j);
      var n := RecordFileName(items[j], render);
      if n.Err? {
        return Err(n.error);
      }
      var o := disk.DumpJson(c, Join(path, n.value), items[j]);
      if o.Fail? {
        WriteConsFail(before, c, path, items[j], items[j + 1..], render, n.value);
        return Err(o.error);
      }
      WriteConsOk(before, c, path, items[j], items[j + 1..], render, n.value);
      ghost var rest := WriteItems(disk.fs, c, path, items[j + 1..], render).1;
      UnionResultAssoc(written, {n.value}, rest);
      written := written + {n.value};
      j := j + 1;
    }
    assert items[j..] == [];
    w := Ok(written);
  }

  /** `for file_name in existing_files - data_files: (path / file_name).unlink()`: the
      set is visited in an unspecified order, so each step picks any remaining name. All
      removals succeed exactly when every name is a file. */
  method RemoveStale(disk: Disk, path: Path, stale: set<string>) returns (o: Outcome)
    modifies disk
    ensures StaleFiles(old(disk.fs), path, stale) ==> disk.fs == old(disk.fs) - Inside(path, stale) && o == Pass
    ensures !StaleFiles(old(disk.fs), path, stale) ==> o.Fail?
  {
    ghost var fsW := disk.fs;
    var left := stale;
    while left != {}
      invariant left <= stale
      invariant disk.fs == fsW - Inside(path, stale - left)
      invariant forall y :: y in stale - left ==> IsFile(fsW, path + [y])
      decreases left
    {
      var k :| k in left;
      InsideMember(path, stale - left, k);
      o := disk.Delete(path + [k]);
      if o.Fail? {
        return;
      }
      assert disk.fs == fsW - Inside(path, stale - (left - {k}));
      left := left - {k};
    }
    assert stale - left == stale;
    o := Pass;
  }

  /** `ComponentDataManager.__init__`: a folder manager does not enlist. */
  function NewManager(relPath: Path, enlist: bool, asFolder: bool): (m: ComponentDataManager)
    ensures m.Valid() && m.relPath == relPath && m.asFolder == asFolder
    ensures m.enlist <==> enlist && !asFolder
  {
    ComponentDataManager(relPath, enlist && !asFolder, asFolder)
  }

  /** `COMPONENT_MANAGERS`: the manager of each record type by its type name. */
  function ManagerFor(t: string): (r: Option<ComponentDataManager>)
  {
    if t == "system" then Some(NewManager(["parts", "system.json"], true, false))
    else if t == "controller" then Some(NewManager(["parts", "controllers"], true, true))
    else if t == "scenario" then Some(NewManager(["parts", "scenarios.json"], true, false))
    else if t == "metric" then Some(NewManager(["parts", "metrics.json"], true, false))
    else if t == "metadata" then Some(NewManager(["config.json"], false, false))
    else None
  }

  /** Systems, scenarios and metrics are enlisted single files; controllers are a folder
      of records, which does not enlist; metadata is the single document `config.json`;
      no other type has a manager. */
  lemma ManagerTable(t: string)
    ensures t in {"system", "scenario", "metric"} ==>
      ManagerFor(t).Some? && ManagerFor(t).value.enlist && !ManagerFor(t).value.asFolder &&
      |ManagerFor(t).value.relPath| == 2 && ManagerFor(t).value.relPath[0] == "parts"
    ensures t == "controller" ==> ManagerFor(t) == Some(ComponentDataManager(["parts", "controllers"], false, true))
    ensures t == "metadata" ==> ManagerFor(t) == Some(ComponentDataManager(["config.json"], false, false))
    ensures ManagerFor(t).Some? <==> t in {"system", "controller", "scenario", "metric", "metadata"}
  {
  }

  /** `[c for c in comps if c['Id'] != key]`, where `key` is the result of evaluating the
      compared expression; it is evaluated once per record, after that record's `Id`, so
      an empty list never evaluates it. */
  function Others(items: seq<Value>, key: Result<Value>): (r: Result<seq<Value>>)
    ensures items == [] ==> r == Ok([])
    decreases |items|
  {
    if items == [] then Ok([])
    else match GetItem(items[0], "Id")
      case Err(e) => Err(e)
      case Ok(id) =>
        match key
        case Err(e) => Err(e)
        case Ok(k) => PrefixResult(if id != k then [items[0]] else [], Others(items[1..], key))
  }

  /** The Id filter keeps exactly the records whose `Id` differs, in their order: it
      splits over concatenation, keeps a record iff its `Id` differs, and fails iff
      some record is not a dict with an `Id`. */
  lemma {:induction false} OthersSpec(items: seq<Value>, id: Value)
    ensures Others(items, Ok(id)).Ok? <==> forall i :: 0 <= i < |items| ==> GetItem(items[i], "Id").Ok?
    ensures Others(items, Ok(id)).Ok? ==>
      (forall x :: x in Others(items, Ok(id)).value <==> x in items && GetItem(x, "Id") != Ok(id))
    decreases |items|
  {
    if items != [] {
      OthersSpec(items[1..], id);
      if GetItem(items[0], "Id").Err? {
        assert !GetItem(items[0], "Id").Ok?;
      } else if Others(items, Ok(id)).Ok? {
        forall x ensures x in Others(items, Ok(id)).value <==> x in items && GetItem(x, "Id") != Ok(id) {
          assert x in items <==> x == items[0] || x in items[1..];
        }
      } else {
        var i :| 0 <= i < |items[1..]| && !GetItem(items[1..][i], "Id").Ok?;
        assert items[1..][i] == items[i + 1];
      }
    }
  }

  lemma {:induction false} OthersConcat(a: seq<Value>, b: seq<Value>, key: Result<Value>)
    requires Others(a, key).Ok?
    ensures Others(a + b, key) == PrefixResult(Others(a, key).value, Others(b, key))
    decreases |a|
  {
    if a == [] {
      assert a + b == b;
    } else {
      assert (a + b)[1..] == a[1..] + b && (a + b)[0] == a[0];
      OthersConcat(a[1..], b, key);
      var id := GetItem(a[0], "Id").value;
      var k := key.value;
      PrefixResultAssoc(if id != k then [a[0]] else [], Others(a[1..], key).value, Others(b, key));
    }
  }

  /** `component.Id` on a record: the records are dicts, which have no attributes. */
  function GetAttr(v: Value, name: string): (r: Result<Value>)
    ensures r == Err(AttributeError(name))
  {
    Err(AttributeError(name))
  }

  /** As written, the filter of `add_component` reads `component.Id`, so it fails on every
      non-empty list of dict records. */
  lemma AddFilterAsWritten(items: seq<Value>, component: Value)
    requires items != [] && GetItem(items[0], "Id").Ok?
    ensures Others(items, GetAttr(component, "Id")) == Err(AttributeError("Id"))
  {
  }

  /** Which expression `add_component` compares the stored `Id`s with. */
  function AddKey(component: Value, asWritten: bool): Result<Value>
  {
    if asWritten then GetAttr(component, "Id") else GetItem(component, "Id")
  }

  /** `add_component`: a single-document manager overwrites its file; the others load the
      records, drop the one with the same `Id`, append the new one and save. */
  function AddSpec(m: ComponentDataManager, fs: FS, c: JsonCodec, envPath: Path, component: Value,
                   names: seq<string>, render: Value -> string, asWritten: bool): (r: Option<(FS, Outcome)>)
  {
    if !m.enlist && !m.asFolder then m.SaveSpec(fs, c, envPath, component, render)
    else match m.LoadSpec(fs, c, envPath, names)
      case Err(e) => Some((fs, Fail(e)))
      case Ok(comps) =>
        match Iterate(comps)
        case Err(e) => Some((fs, Fail(e)))
        case Ok(items) =>
          match Others(items, AddKey(component, asWritten))
          case Err(e) => Some((fs, Fail(e)))
          case Ok(kept) => m.SaveSpec(fs, c, envPath, List(kept + [component]), render)
  }

  /** `remove_component`: load the records, keep those whose `Id` differs, and save. */
  function RemoveSpec(m: ComponentDataManager, fs: FS, c: JsonCodec, envPath: Path, id: Value,
                      names: seq<string>, render: Value -> string): (r: Option<(FS, Outcome)>)
  {
    match m.LoadSpec(fs, c, envPath, names)
    case Err(e) => Some((fs, Fail(e)))
    case Ok(comps) =>
      match Iterate(comps)
      case Err(e) => Some((fs, Fail(e)))
      case Ok(items) =>
        match Others(items, Ok(id))
        case Err(e) => Some((fs, Fail(e)))
        case Ok(kept) => m.SaveSpec(fs, c, envPath, List(kept), render)
  }

  /** An enlisted file manager loads back exactly the list it saved. */
  lemma FileSaveLoad(m: ComponentDataManager, fs: FS, c: JsonCodec, envPath: Path, items: seq<Value>, names: seq<string>, render: Value -> string)
    requires Faithful(c) && !m.asFolder
    requires m.SaveSpec(fs, c, envPath, List(items), render).value.1 == Pass
    ensures m.LoadSpec(m.SaveSpec(fs, c, envPath, List(items), render).value.0, c, envPath, names) == Ok(List(items))
  {
    SaveJsonPass(fs, c, envPath + m.relPath, List(items));
  }

  /** On a single-file manager that enlists, a successful `add_component` (comparing
      `Id`s by key) leaves the file holding the other records, in order, followed by the
      new record. */
  lemma AddThenLoad(m: ComponentDataManager, fs: FS, c: JsonCodec, envPath: Path, component: Value, names: seq<string>, render: Value -> string)
    requires Faithful(c) && m.enlist && !m.asFolder
    requires AddSpec(m, fs, c, envPath, component, names, render, false) == Some((AddSpec(m, fs, c, envPath, component, names, render, false).value.0, Pass))
    ensures var items := m.LoadSpec(fs, c, envPath, names).value.items;
      var kept := Others(items, GetItem(component, "Id")).value;
      m.LoadSpec(AddSpec(m, fs, c, envPath, component, names, render, false).value.0, c, envPath, names) == Ok(List(kept + [component])) &&
      (forall x :: x in kept <==> x in items && GetItem(x, "Id") != GetItem(component, "Id"))
  {
    var items := m.LoadSpec(fs, c, envPath, names).value.items;
    var kept := Others(items, GetItem(component, "Id")).value;
    FileSaveLoad(m, fs, c, envPath, kept + [component], names, render);
    if items != [] {
      OthersSpec(items, GetItem(component, "Id").value);
    }
  }

  /** As written, `add_component` on a manager that loads a list either fails with
      `AttributeError('Id')` without writing, once the list has a record with an `Id`,
      or, on an empty list, saves the one-element list of the new record. */
  lemma AddAsWritten(m: ComponentDataManager, fs: FS, c: JsonCodec, envPath: Path, component: Value, names: seq<string>, render: Value -> string)
    requires m.enlist || m.asFolder
    requires m.LoadSpec(fs, c, envPath, names).Ok? && Iterate(m.LoadSpec(fs, c, envPath, names).value).Ok?
    ensures var items := Iterate(m.LoadSpec(fs, c, envPath, names).value).value;
      items != [] && GetItem(items[0], "Id").Ok? ==>
        AddSpec(m, fs, c, envPath, component, names, render, true) == Some((fs, Fail(AttributeError("Id"))))
    ensures var items := Iterate(m.LoadSpec(fs, c, envPath, names).value).value;
      items == [] ==>
        AddSpec(m, fs, c, envPath, component, names, render, true) == m.SaveSpec(fs, c, envPath, List([component]), render)
  {
    var items := Iterate(m.LoadSpec(fs, c, envPath, names).value).value;
    if items != [] && GetItem(items[0], "Id").Ok? {
      AddFilterAsWritten(items, component);
    }
    assert [] + [component] == [component];
  }

  /** On a single-file manager that enlists, a successful `remove_component` leaves the
      file holding exactly the records whose `Id` differs, in order. */
  lemma RemoveThenLoad(m: ComponentDataManager, fs: FS, c: JsonCodec, envPath: Path, id: Value, names: seq<string>, render: Value -> string)
    requires Faithful(c) && m.enlist && !m.asFolder
    requires RemoveSpec(m, fs, c, envPath, id, names, render) == Some((RemoveSpec(m, fs, c, envPath, id, names, render).value.0, Pass))
    ensures var items := m.LoadSpec(fs, c, envPath, names).value.items;
      var kept := Others(items, Ok(id)).value;
      m.LoadSpec(RemoveSpec(m, fs, c, envPath, id, names, render).value.0, c, envPath, names) == Ok(List(kept)) &&
      (forall x :: x in kept <==> x in items && GetItem(x, "Id") != Ok(id))
  {
    var items := m.LoadSpec(fs, c, envPath, names).value.items;
    var kept := Others(items, Ok(id)).value;
    FileSaveLoad(m, fs, c, envPath, kept, names, render);
    OthersSpec(items, id);
  }

  /** The methods of a record manager that change the tree. */
  method AddComponentTo(m: ComponentDataManager, disk: Disk, c: JsonCodec, envPath: Path, component: Value,
                        names: seq<string>, render: Value -> string) returns (o: Outcome)
    requires m.asFolder ==> IsJsonListing(disk.fs, envPath + m.relPath, names)
    modifies disk
    ensures var s := AddSpec(m, old(disk.fs), c, envPath, component, names, render, true);
      if s.Some? then (disk.fs, o) == s.value else o.Fail?
  {
    if !m.enlist && !m.asFolder {
      o := m.Save(disk, c, envPath, component, render);
      return;
    }
    var comps := m.Load(disk, c, envPath, names);
    if comps.Err? {
      return Fail(comps.error);
    }
    var items := Iterate(comps.value);
    if items.Err? {
      return Fail(items.error);
    }
    var kept := Others(items.value, GetAttr(component, "Id"));
    if kept.Err? {
      return Fail(kept.error);
    }
    o := m.Save(disk, c, envPath, List(kept.value + [component]), render);
  }

  method RemoveComponentFrom(m: ComponentDataManager, disk: Disk, c: JsonCodec, envPath: Path, id: Value,
                             names: seq<string>, render: Value -> string) returns (o: Outcome)
    requires m.asFolder ==> IsJsonListing(disk.fs, envPath + m.relPath, names)
    modifies disk
    ensures var s := RemoveSpec(m, old(disk.fs), c, envPath, id, names, render);
      if s.Some? then (disk.fs, o) == s.value else o.Fail?
  {
    var comps := m.Load(disk, c, envPath, names);
    if comps.Err? {
      return Fail(comps.error);
    }
    var items := Iterate(comps.value);
    if items.Err? {
      return Fail(items.error);
    }
    var kept := Others(items.value, Ok(id));
    if kept.Err? {
      return Fail(kept.error);
    }
    o := m.Save(disk, c, envPath, List(kept.value), render);
  }

  /** The environment as `load_environment_data` returns it. */
  datatype EnvData = EnvData(metadata: Value, systems: Value, controllers: Value, scenarios: Value, metrics: Value)

  /** `load_environment_data`: the five managers in turn; the first failure raises. */
  function LoadEnvironmentData(fs: FS, c: JsonCodec, envPath: Path, controllerNames: seq<string>): (r: Result<EnvData>)
    ensures r.Ok? ==> r.value.systems.List? && r.value.scenarios.List? && r.value.metrics.List? && r.value.controllers.List?
  {
    var md :- ManagerFor("metadata").value.LoadSpec(fs, c, envPath, []);
    var sys :- ManagerFor("system").value.LoadSpec(fs, c, envPath, []);
    var ctl :- ManagerFor("controller").value.LoadSpec(fs, c, envPath, controllerNames);
    var sc :- ManagerFor("scenario").value.LoadSpec(fs, c, envPath, []);
    var mt :- ManagerFor("metric").value.LoadSpec(fs, c, envPath, []);
    Ok(EnvData(md, sys, ctl, sc, mt))
  }

  /** The saves `save_environment_data` makes, in order. */
  function EnvJobs(data: EnvData): (r: seq<(ComponentDataManager, Value)>)
    ensures |r| == 5
  {
    [(ManagerFor("metadata").value, data.metadata), (ManagerFor("system").value, data.systems),
     (ManagerFor("controller").value, data.controllers), (ManagerFor("scenario").value, data.scenarios),
     (ManagerFor("metric").value, data.metrics)]
  }

  /** Saves in turn, stopping at the first failure. */
  function SaveChain(fs: FS, c: JsonCodec, envPath: Path, jobs: seq<(ComponentDataManager, Value)>, render: Value -> string): (r: Option<(FS, Outcome)>)
    decreases |jobs|
  {
    if jobs == [] then Some((fs, Pass))
    else match jobs[0].0.SaveSpec(fs, c, envPath, jobs[0].1, render)
      case None => None
      case Some(s) => if s.1.Fail? || |jobs| == 1 then Some(s) else SaveChain(s.0, c, envPath, jobs[1..], render)
  }

  lemma SaveChainAt(fs: FS, c: JsonCodec, envPath: Path, jobs: seq<(ComponentDataManager, Value)>, render: Value -> string, k: nat)
    requires k + 1 < |jobs|
    ensures var s := jobs[k].0.SaveSpec(fs, c, envPath, jobs[k].1, render);
      SaveChain(fs, c, envPath, jobs[k..], render) == if s.None? || s.value.1.Fail? then s else SaveChain(s.value.0, c, envPath, jobs[k + 1..], render)
  {
    assert jobs[k..][0] == jobs[k] && jobs[k..][1..] == jobs[k + 1..];
  }

  lemma SaveChainLast(fs: FS, c: JsonCodec, envPath: Path, jobs: seq<(ComponentDataManager, Value)>, render: Value -> string)
    requires |jobs| > 0
    ensures var k := |jobs| - 1;
      SaveChain(fs, c, envPath, jobs[k..], render) == jobs[k].0.SaveSpec(fs, c, envPath, jobs[k].1, render)
  {
    assert jobs[|jobs| - 1..][0] == jobs[|jobs| - 1];
  }

  /** The older environment manager: the environment folder it works in. */
  class EnvFileManager {
    const envPath: Path
    const codec: JsonCodec
    const render: Value -> string

    constructor (envPath: Path, codec: JsonCodec, render: Value -> string)
      ensures this.envPath == envPath && this.codec == codec && this.render == render
    {
      this.envPath := envPath;
      this.codec := codec;
      this.render := render;
    }

    /** `add_component(component_type, component)`: an unknown type raises `ValueError`. */
    method AddComponent(disk: Disk, componentType: string, component: Value, names: seq<string>) returns (o: Outcome)
      requires componentType == "controller" ==> IsJsonListing(disk.fs, envPath + ["parts", "controllers"], names)
      modifies disk
      ensures ManagerFor(componentType).None? ==> o == Fail(ValueError("Unknown component type")) && disk.fs == old(disk.fs)
      ensures ManagerFor(componentType).Some? ==>
        var s := AddSpec(ManagerFor(componentType).value, old(disk.fs), codec, envPath, component, names, render, true);
        if s.Some? then (disk.fs, o) == s.value else o.Fail?
    {
      var m := ManagerFor(componentType);
      if m.None? {
        return Fail(ValueError("Unknown component type"));
      }
      o := AddComponentTo(m.value, disk, codec, envPath, component, names, render);
    }

    /** `remove_component(component_type, component)`: an unknown type raises
        `ValueError`; the record's `Id` is read before anything is loaded. */
    method RemoveComponent(disk: Disk, componentType: string, component: Value, names: seq<string>) returns (o: Outcome)
      requires componentType == "controller" ==> IsJsonListing(disk.fs, envPath + ["parts", "controllers"], names)
      modifies disk
      ensures ManagerFor(componentType).None? ==> o == Fail(ValueError("Unknown component type")) && disk.fs == old(disk.fs)
      ensures ManagerFor(componentType).Some? && GetItem(component, "Id").Err? ==>
        o == Fail(GetItem(component, "Id").error) && disk.fs == old(disk.fs)
      ensures ManagerFor(componentType).Some? && GetItem(component, "Id").Ok? ==>
        var s := RemoveSpec(ManagerFor(componentType).value, old(disk.fs), codec, envPath, GetItem(component, "Id").value, names, render);
        if s.Some? then (disk.fs, o) == s.value else o.Fail?
    {
      var m := ManagerFor(componentType);
      if m.None? {
        return Fail(ValueError("Unknown component type"));
      }
      var id := GetItem(component, "Id");
      if id.Err? {
        return Fail(id.error);
      }
      o := RemoveComponentFrom(m.value, disk, codec, envPath, id.value, names, render);
    }

    /** `save_environment_data`: the five managers in turn; the first failure stops. */
    method SaveEnvironmentData(disk: Disk, data: EnvData) returns (o: Outcome)
      modifies disk
      ensures var s := SaveChain(old(disk.fs), codec, envPath, EnvJobs(data), render);
        if s.Some? then (disk.fs, o) == s.value else o.Fail?
    {
      var jobs := EnvJobs(data);
      assert jobs[0..] == jobs;
      ghost var f0 := disk.fs;
      SaveChainAt(f0, codec, envPath, jobs, render, 0);
      o := jobs[0].0.Save(disk, codec, envPath, jobs[0].1, render);
      if o.Fail? {
        return;
      }
      ghost var f1 := disk.fs;
      SaveChainAt(f1, codec, envPath, jobs, render, 1);
      o := jobs[1].0.Save(disk, codec, envPath, jobs[1].1, render);
      if o.Fail? {
        return;
      }
      ghost var f2 := disk.fs;
      SaveChainAt(f2, codec, envPath, jobs, render, 2);
      o := jobs[2].0.Save(disk, codec, envPath, jobs[2].1, render);
      if o.Fail? {
        return;
      }
      ghost var f3 := disk.fs;
      SaveChainAt(f3, codec, envPath, jobs, render, 3);
      o := jobs[3].0.Save(disk, codec, envPath, jobs[3].1, render);
      if o.Fail? {
        return;
      }
      ghost var f4 := disk.fs;
      SaveChainLast(f4, codec, envPath, jobs, render);
      o := jobs[4].0.Save(disk, codec, envPath, jobs[4].1, render);
    }
  }

  /** `EnvFileManager(env_path)`: an invalid environment path raises `ValueError`. */
  method NewEnvFileManager(disk: Disk, envPath: Path, codec: JsonCodec, render: Value -> string) returns (r: Result<EnvFileManager>)
    ensures r.Err? <==> !EnvironmentDataManager.IsValidEnvPath(disk.fs, envPath)
    ensures r.Err? ==> r.error == ValueError("Invalid environment path")
    ensures r.Ok? ==> fresh(r.value) && r.value.envPath == envPath && r.value.codec == codec
  {
    if !EnvironmentDataManager.IsValidEnvPath(disk.fs, envPath) {
      return Err(ValueError("Invalid environment path"));
    }
    var m := new EnvFileManager(envPath, codec, render);
    r := Ok(m);
  }
}

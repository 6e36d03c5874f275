/** `load_env_controllers` (`environment_data.py`): the controller documents of an
    environment, one per controller folder. */
module EnvironmentData {
  import opened Wrappers
  import opened Values
  import opened FileSystem

  /** `<env>/parts/controllers`. */
  function ControllersRoot(envPath: Path): Path
  {
    envPath + ["parts", "controllers"]
  }

  /** `<root>/<name>/controller.json`. */
  function DocPath(root: Path, name: string): Path
  {
    root + [name] + ["controller.json"]
  }

  /** An entry contributes when it is a folder and `controller.json` exists in it (as a
      file or a folder: `exists()` does not tell them apart). */
  predicate Qualifies(fs: FS, root: Path, name: string)
  {
    IsDir(fs, root + [name]) && DocPath(root, name) in fs
  }

  /** The entries of a listing that contribute, in listing order. */
  function Qualifying(fs: FS, root: Path, names: seq<string>): (r: seq<string>)
    ensures forall n :: n in r <==> n in names && Qualifies(fs, root, n)
    decreases |names|
  {
    if names == [] then []
    else if Qualifies(fs, root, names[0]) then [names[0]] + Qualifying(fs, root, names[1..])
    else Qualifying(fs, root, names[1..])
  }

  /** What one entry of the listing contributes. */
  function EntryDoc(fs: FS, c: JsonCodec, root: Path, name: string): (r: Result<seq<Value>>)
    ensures !Qualifies(fs, root, name) ==> r == Ok([])
  {
    if !Qualifies(fs, root, name) then Ok([])
    else match LoadJson(fs, c, DocPath(root, name))
      case Err(e) => Err(e)
      case Ok(v) => Ok([v])
  }

  /** The loop of `load_env_controllers` over the listing `names`. */
  function Docs(fs: FS, c: JsonCodec, root: Path, names: seq<string>): Result<seq<Value>>
    decreases |names|
  {
    if names == [] then Ok([])
    else match EntryDoc(fs, c, root, names[0])
      case Err(e) => Err(e)
      case Ok(ds) => PrefixResult(ds, Docs(fs, c, root, names[1..]))
  }

  /** `load_env_controllers(env_path)`, with the listing of the controllers folder in the
      order the operating system gives it. A missing folder raises. */
  function LoadEnvControllersSpec(fs: FS, c: JsonCodec, envPath: Path, names: seq<string>): Result<seq<Value>>
  {
    var root := ControllersRoot(envPath);
    if root !in fs then Err(FileNotFoundError(root))
    else if !IsDir(fs, root) then Err(NotADirectoryError(root))
    else Docs(fs, c, root, names)
  }

  lemma DocsStep(fs: FS, c: JsonCodec, root: Path, names: seq<string>, i: nat)
    requires i < |names|
    ensures Docs(fs, c, root, names[i..]) ==
      match EntryDoc(fs, c, root, names[i])
      case Err(e) => Err(e)
      case Ok(ds) => PrefixResult(ds, Docs(fs, c, root, names[i + 1..]))
  {
    assert names[i..][0] == names[i] && names[i..][1..] == names[i + 1..];
  }

  method LoadEnvControllers(fs: FS, c: JsonCodec, envPath: Path, names: seq<string>) returns (r: Result<seq<Value>>)
    ensures r == LoadEnvControllersSpec(fs, c, envPath, names)
  {
    var root := ControllersRoot(envPath);
    if root !in fs {
      return Err(FileNotFoundError(root));
    }
    if !IsDir(fs, root) {
      return Err(NotADirectoryError(root));
    }
    var controllers: seq<Value> := [];
    var i := 0;
    while i < |names|
      invariant 0 <= i <= |names|
      invariant PrefixResult(controllers, Docs(fs, c, root, names[i..])) == Docs(fs, c, root, names)
    {
      DocsStep(fs, c, root, names, i);
      var n := names[i];
      if !IsDir(fs, root + [n]) {
        i := i + 1;
        continue;
      }
      var file := DocPath(root, n);
      if file !in fs {
        i := i + 1;
        continue;
      }
      var doc := LoadJson(fs, c, file);
      if doc.Err? {
        assert Docs(fs, c, root, names[i..]) == Err(doc.error);
        return Err(doc.error);
      }
      PrefixResultAssoc(controllers, [doc.value], Docs(fs, c, root, names[i + 1..]));
      controllers := controllers + [doc.value];
      i := i + 1;
    }
    assert names[i..] == [];
    assert controllers + [] == controllers;
    r := Ok(controllers);
  }

  /** Every entry of `q` has a loadable document. */
  ghost predicate AllLoad(fs: FS, c: JsonCodec, root: Path, q: seq<string>)
  {
    forall j :: 0 <= j < |q| ==> LoadJson(fs, c, DocPath(root, q[j])).Ok?
  }

  lemma AllLoadCons(fs: FS, c: JsonCodec, root: Path, n: string, q: seq<string>)
    ensures AllLoad(fs, c, root, [n] + q) <==> LoadJson(fs, c, DocPath(root, n)).Ok? && AllLoad(fs, c, root, q)
  {
    if AllLoad(fs, c, root, [n] + q) {
      assert ([n] + q)[0] == n;
      forall j | 0 <= j < |q| ensures LoadJson(fs, c, DocPath(root, q[j])).Ok? {
        assert ([n] + q)[j + 1] == q[j];
      }
    }
    if LoadJson(fs, c, DocPath(root, n)).Ok? && AllLoad(fs, c, root, q) {
      forall j | 0 <= j < |[n] + q| ensures LoadJson(fs, c, DocPath(root, ([n] + q)[j])).Ok? {
        if j > 0 {
          assert ([n] + q)[j] == q[j - 1];
        }
      }
    }
  }

  /** The load succeeds exactly when every contributing document loads. */
  lemma {:induction false} DocsOk(fs: FS, c: JsonCodec, root: Path, names: seq<string>)
    ensures Docs(fs, c, root, names).Ok? <==> AllLoad(fs, c, root, Qualifying(fs, root, names))
    decreases |names|
  {
    if names != [] {
      DocsOk(fs, c, root, names[1..]);
      if Qualifies(fs, root, names[0]) {
        AllLoadCons(fs, c, root, names[0], Qualifying(fs, root, names[1..]));
      }
    }
  }

  /** A successful load returns one document per contributing entry, in order. */
  lemma {:induction false} DocsValues(fs: FS, c: JsonCodec, root: Path, names: seq<string>)
    ensures var q := Qualifying(fs, root, names); var r := Docs(fs, c, root, names);
      r.Ok? ==> |r.value| == |q| && forall j :: 0 <= j < |q| ==> LoadJson(fs, c, DocPath(root, q[j])) == Ok(r.value[j])
    decreases |names|
  {
    if names != [] {
      DocsValues(fs, c, root, names[1..]);
      var q := Qualifying(fs, root, names);
      var q1 := Qualifying(fs, root, names[1..]);
      var rest := Docs(fs, c, root, names[1..]);
      if Qualifies(fs, root, names[0]) && Docs(fs, c, root, names).Ok? {
        var v := LoadJson(fs, c, DocPath(root, names[0])).value;
        var r := Docs(fs, c, root, names).value;
        assert r == [v] + rest.value;
        forall j | 0 <= j < |q| ensures LoadJson(fs, c, DocPath(root, q[j])) == Ok(r[j]) {
          if j > 0 {
            assert q[j] == q1[j - 1] && r[j] == rest.value[j - 1];
          }
        }
      }
    }
  }

  /** Every loadable document is returned, in listing order, one per contributing
      folder; the load succeeds exactly when every contributing document loads. */
  lemma DocsMeaning(fs: FS, c: JsonCodec, root: Path, names: seq<string>)
    ensures var q := Qualifying(fs, root, names);
      Docs(fs, c, root, names).Ok? <==> forall j :: 0 <= j < |q| ==> LoadJson(fs, c, DocPath(root, q[j])).Ok?
    ensures var q := Qualifying(fs, root, names); var r := Docs(fs, c, root, names);
      r.Ok? ==> |r.value| == |q| && forall j :: 0 <= j < |q| ==> LoadJson(fs, c, DocPath(root, q[j])) == Ok(r.value[j])
  {
    DocsOk(fs, c, root, names);
    DocsValues(fs, c, root, names);
  }

  /** The loaded controllers are exactly those of the folders `Qualifying` picks. */
  lemma LoadedControllers(fs: FS, c: JsonCodec, envPath: Path, names: seq<string>)
    requires IsDir(fs, ControllersRoot(envPath))
    ensures var root := ControllersRoot(envPath); var q := Qualifying(fs, root, names);
      var r := LoadEnvControllersSpec(fs, c, envPath, names);
      (r.Ok? <==> forall j :: 0 <= j < |q| ==> LoadJson(fs, c, DocPath(root, q[j])).Ok?) &&
      (r.Ok? ==> |r.value| == |q| && forall j :: 0 <= j < |q| ==> LoadJson(fs, c, DocPath(root, q[j])) == Ok(r.value[j]))
  {
    DocsMeaning(fs, c, ControllersRoot(envPath), names);
  }

  /** With a true listing, the contributing entries are exactly the sub-folders that hold
      a `controller.json`: anything else in the folder is skipped. */
  lemma QualifyingChildren(fs: FS, root: Path, names: seq<string>, n: string)
    requires IsListing(fs, root, names)
    ensures n in Qualifying(fs, root, names) <==> IsDir(fs, root + [n]) && DocPath(root, n) in fs
  {
    ChildIn(fs, root, n);
  }

  /** The folder name is not compared with the document: a document whose `Id` differs
      from its folder's name is returned as it is. */
  lemma FolderNameIgnored(fs: FS, c: JsonCodec, envPath: Path, n: string, doc: Value)
    requires IsDir(fs, ControllersRoot(envPath)) && Qualifies(fs, ControllersRoot(envPath), n)
    requires LoadJson(fs, c, DocPath(ControllersRoot(envPath), n)) == Ok(doc)
    requires doc.Dict? && Lookup(doc.entries, "Id") != Some(Str(n))
    ensures LoadEnvControllersSpec(fs, c, envPath, [n]) == Ok([doc])
  {
    var root := ControllersRoot(envPath);
    assert [n][1..] == [];
    assert EntryDoc(fs, c, root, n) == Ok([doc]);
    assert [doc] + [] == [doc];
    assert Docs(fs, c, root, [n]) == PrefixResult([doc], Docs(fs, c, root, []));
  }

  /** A missing controllers folder raises instead of giving `[]`. */
  lemma MissingFolderRaises(fs: FS, c: JsonCodec, envPath: Path, names: seq<string>)
    requires ControllersRoot(envPath) !in fs
    ensures LoadEnvControllersSpec(fs, c, envPath, names) == Err(FileNotFoundError(envPath + ["parts", "controllers"]))
  {
  }
}

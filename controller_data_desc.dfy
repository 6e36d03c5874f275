/** The controller side-file descriptor: only the shared callbacks file. */
module ControllerDataDesc {
  import opened Wrappers
  import opened Values
  import opened FileSystem
  import opened DataDescBase

  /** The declared side files. */
  const FileNames: seq<string> := ["callbacks.py"]

  /** The generator of a declared file; `None` for a name that is not declared. */
  function Generate(name: string, comp: Value): (r: Option<string>)
    ensures r.Some? <==> name in FileNames
  {
    if name == "callbacks.py" then Some(CallbacksTemplate(comp)) else None
  }

  /** The one declared file is `callbacks.py`, seeded from the shared template, which
      embeds the controller's Id. */
  lemma DeclaredFiles(a: Value, b: Value)
    ensures forall n :: n in FileNames <==> n == "callbacks.py"
    ensures Generate("callbacks.py", a) == Some(CallbacksTemplate(a))
    ensures Generate("callbacks.py", a) == Generate("callbacks.py", b) ==> IdText(a) == IdText(b)
  {
    CallbacksEmbedsId(a, b);
  }

  /** The shared `remove` on this descriptor deletes at most `callbacks.py`. */
  lemma RemoveTouchesOnlyCallbacks(fs: FS, path: Path)
    ensures RemoveDeclared(fs, path, FileNames).1 == Pass <==> !IsDir(fs, path + ["callbacks.py"])
    ensures RemoveDeclared(fs, path, FileNames).1 == Pass ==>
      RemoveDeclared(fs, path, FileNames).0 == fs - {path + ["callbacks.py"]}
  {
    RemoveDeclaredSpec(fs, path, FileNames);
    assert DeclaredPaths(path, FileNames) == {path + ["callbacks.py"]} by {
      assert FileNames[0] == "callbacks.py";
    }
  }

  /** `ControllerDataDesc(component_path)`: only records the folder. */
  method New(componentPath: Path) returns (d: DataDesc)
    ensures fresh(d) && d.path == componentPath && d.files == FileNames
  {
    d := new DataDesc(componentPath, FileNames);
  }
}

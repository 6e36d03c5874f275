/** The single-file handler: one side file of a component, seeded with a default text
    when it is first handled, and deleted or copied verbatim on request. */
module FileHandler {
  import opened Wrappers
  import opened FileSystem

  /** `file_name.split('.')[0]`: the name up to its first dot. */
  function BaseName(s: string): (r: string)
    ensures |r| <= |s| && r == s[..|r|]
    ensures forall i :: 0 <= i < |r| ==> r[i] != '.'
    ensures |r| < |s| ==> s[|r|] == '.'
  {
    if s == [] || s[0] == '.' then [] else [s[0]] + BaseName(s[1..])
  }

  /** `BaseName` is the only prefix free of dots that ends at a dot or at the end. */
  lemma {:induction false} BaseNameUnique(s: string, r: string)
    requires |r| <= |s| && r == s[..|r|]
    requires forall i :: 0 <= i < |r| ==> r[i] != '.'
    requires |r| < |s| ==> s[|r|] == '.'
    ensures r == BaseName(s)
  {
    if |r| > 0 {
      assert r[0] == s[0];
      BaseNameUnique(s[1..], r[1..]);
      assert r == [r[0]] + r[1..];
    }
  }

  /** `make_file_if_not_exists`: an existing entry is left as it is. */
  function SeedSpec(fs: FS, p: Path, t: string): (r: (FS, Outcome))
    ensures p in fs ==> r == (fs, Pass)
    ensures p !in fs ==> (r.1 == Pass <==> WriteText(fs, p, t).Ok?)
    ensures r.1 == Pass ==> p in r.0 && forall q :: q in r.0 ==> q in fs || q == p
    ensures p !in fs && r.1 == Pass ==> r.0 == fs[p := File(t)]
    ensures r.1.Fail? ==> r.0 == fs
  {
    if p in fs then (fs, Pass)
    else match WriteText(fs, p, t)
      case Err(e) => (fs, Fail(e))
      case Ok(fs') => (fs', Pass)
  }

  /** The constructor: the folder above `<dir_path>/<file_name>` is created when missing,
      then the file is seeded. */
  function CreateSpec(fs: FS, dirPath: Path, fileName: string, dflt: string): (FS, Outcome)
  {
    var p := Join(dirPath, fileName);
    match MakeDirsIfMissing(fs, Dirname(p))
    case Err(e) => (fs, Fail(e))
    case Ok(fs1) => SeedSpec(fs1, p, dflt)
  }

  /** Creating a handler never changes an existing entry, adds only the file and the
      folders above it, and on success the file exists, holding the default text when it
      was absent. */
  lemma CreateEffect(fs: FS, dirPath: Path, fileName: string, dflt: string)
    ensures var r := CreateSpec(fs, dirPath, fileName, dflt);
      forall q :: q in fs ==> q in r.0 && r.0[q] == fs[q]
    ensures var r := CreateSpec(fs, dirPath, fileName, dflt); var p := Join(dirPath, fileName);
      r.0.Keys <= fs.Keys + Ancestors(Dirname(p)) + {p}
    ensures var r := CreateSpec(fs, dirPath, fileName, dflt); var p := Join(dirPath, fileName);
      r.1 == Pass && p != [] && p !in fs ==> p in r.0 && r.0[p] == File(dflt)
  {
    var p := Join(dirPath, fileName);
    MakeDirsSpec(fs, Dirname(p));
  }

  /** On a well-formed tree a handler for an existing file changes nothing. */
  lemma CreateKeepsExisting(fs: FS, dirPath: Path, fileName: string, dflt: string)
    requires WellFormed(fs) && Join(dirPath, fileName) in fs
    ensures CreateSpec(fs, dirPath, fileName, dflt) == (fs, Pass)
  {
  }

  /** `delete_file`: an absent file is not an error. */
  function DeleteSpec(fs: FS, p: Path): (r: Result<FS>)
    ensures p !in fs ==> r == Ok(fs)
    ensures p in fs ==> r == Unlink(fs, p)
  {
    if p in fs then Unlink(fs, p) else Ok(fs)
  }

  /** `duplicate_file(new_comp_path)`: copies the text verbatim to
      `<new_comp_path>/<file_name>` without creating any folder. */
  function DuplicateSpec(fs: FS, src: Path, fileName: string, newCompPath: Path): (FS, Result<Option<Path>>)
  {
    var dest := Join(newCompPath, fileName);
    if src !in fs then (fs, Ok(None))
    else match ReadText(fs, src)
      case Err(e) => (fs, Err(e))
      case Ok(t) =>
        match WriteText(fs, dest, t)
        case Err(e) => (fs, Err(e))
        case Ok(fs') => (fs', Ok(Some(dest)))
  }

  /** An absent source gives `None`; a copy returns the destination and puts there
      exactly the source's text; nothing else ever changes. */
  lemma DuplicateEffect(fs: FS, src: Path, fileName: string, newCompPath: Path)
    ensures var r := DuplicateSpec(fs, src, fileName, newCompPath);
      src !in fs ==> r == (fs, Ok(None))
    ensures var r := DuplicateSpec(fs, src, fileName, newCompPath); var dest := Join(newCompPath, fileName);
      r.1.Ok? && r.1.value.Some? ==> r.1.value.value == dest && IsFile(fs, src) && r.0 == fs[dest := fs[src]]
    ensures var r := DuplicateSpec(fs, src, fileName, newCompPath);
      r.1.Err? ==> r.0 == fs
  {
  }

  /** No folder is created: a copy into a missing folder raises and changes nothing. */
  lemma DuplicateNeedsFolder(fs: FS, src: Path, fileName: string, newCompPath: Path)
    requires WellFormed(fs) && IsFile(fs, src) && fileName != "" && newCompPath !in fs
    ensures DuplicateSpec(fs, src, fileName, newCompPath) == (fs, Err(FileNotFoundError(newCompPath + [fileName])))
  {
  }

  /** `ComponentFileHandler(dir_path, file_name, default_txt)`. */
  class ComponentFileHandler {
    const dirPath: Path
    const fileName: string
    const name: string
    const defaultTxt: string
    const filePath: Path

    constructor (dirPath: Path, fileName: string, defaultTxt: string)
      ensures this.dirPath == dirPath && this.fileName == fileName && this.defaultTxt == defaultTxt
      ensures name == BaseName(fileName) && filePath == Join(dirPath, fileName)
    {
      this.dirPath := dirPath;
      this.fileName := fileName;
      name := BaseName(fileName);
      this.defaultTxt := defaultTxt;
      filePath := Join(dirPath, fileName);
    }

    /** Construction with its filesystem effect; an exception raised by the constructor
        is an error result. */
    static method Create(disk: Disk, dirPath: Path, fileName: string, defaultTxt: string) returns (r: Result<ComponentFileHandler>)
      modifies disk
      ensures (disk.fs, if r.Ok? then Pass else Fail(r.error)) == CreateSpec(old(disk.fs), dirPath, fileName, defaultTxt)
      ensures r.Ok? ==> fresh(r.value) && r.value.dirPath == dirPath && r.value.fileName == fileName
      ensures r.Ok? ==> r.value.defaultTxt == defaultTxt && r.value.filePath == Join(dirPath, fileName)
    {
      var h := new ComponentFileHandler(dirPath, fileName, defaultTxt);
      var o := disk.MkdirIfMissing(Dirname(h.filePath));
      if o.Fail? {
        return Err(o.error);
      }
      o := h.MakeFileIfNotExists(disk);
      if o.Fail? {
        return Err(o.error);
      }
      r := Ok(h);
    }

    method MakeFileIfNotExists(disk: Disk) returns (o: Outcome)
      modifies disk
      ensures (disk.fs, o) == SeedSpec(old(disk.fs), filePath, defaultTxt)
    {
      if filePath in disk.fs {
        return Pass;
      }
      o := disk.Write(filePath, defaultTxt);
    }

    method DeleteFile(disk: Disk) returns (o: Outcome)
      modifies disk
      ensures var r := DeleteSpec(old(disk.fs), filePath);
        if r.Ok? then disk.fs == r.value && o == Pass else disk.fs == old(disk.fs) && o == Fail(r.error)
    {
      if filePath in disk.fs {
        o := disk.Delete(filePath);
      } else {
        o := Pass;
      }
    }

    method DuplicateFile(disk: Disk, newCompPath: Path) returns (r: Result<Option<Path>>)
      modifies disk
      ensures (disk.fs, r) == DuplicateSpec(old(disk.fs), filePath, fileName, newCompPath)
    {
      var newFilePath := Join(newCompPath, fileName);
      if filePath !in disk.fs {
        return Ok(None);
      }
      var src := ReadText(disk.fs, filePath);
      if src.Err? {
        return Err(src.error);
      }
      var o := disk.Write(newFilePath, src.value);
      if o.Fail? {
        return Err(o.error);
      }
      r := Ok(Some(newFilePath));
    }
  }
}

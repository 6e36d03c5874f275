/** The shared part of every side-file descriptor: the callbacks template, and the
    operations that copy or delete a component's declared side files. A descriptor
    knows the folder it works in and the names of its declared files, in declaration
    order; the concrete descriptors supply those names and their generators. */
module DataDescBase {
  import opened Wrappers
  import opened Strings
  import opened Values
  import opened FileSystem

  const CallbacksHead: string :=
    "\nfrom csbenchlab.common_types import *\nimport numpy as np\n\n# Override callback functions for component "
  const CallbacksPre: string := "\n# Called once on simulation loading\n"
  const OnLoad: string := "def on_load():"
  const CallbacksMid1: string := "\n    pass\n\n# Called once when simulation is ready to start\n"
  const OnStart: string := "def on_start():"
  const CallbacksMid2: string := "\n    pass\n\n# Called once when simulation ends\n"
  const OnEnd: string := "def on_end():"
  const CallbacksPost: string := "\n    pass\n"
  const CallbacksTail: string :=
    CallbacksPre + OnLoad + CallbacksMid1 + OnStart + CallbacksMid2 + OnEnd + CallbacksPost

  /** `get_default_callbacks_txt_file(comp)`. */
  function CallbacksTemplate(comp: Value): string
  {
    CallbacksHead + IdText(comp) + CallbacksTail
  }

  /** A text occurs in any text that has it as a piece. */
  lemma ContainsPiece(x: string, t: string, y: string)
    ensures Contains(x + t + y, t)
  {
    assert (x + t + y)[|x|..|x| + |t|] == t;
    assert OccursAt(x + t + y, t, |x|);
  }

  /** The three hooks of a text built as a head followed by a tail of the form text,
      hook, text, hook, text, hook, text. */
  lemma ContainsHooks(x: string, p: string, h1: string, x1: string, h2: string, x2: string, h3: string, x3: string)
    ensures Contains(x + (p + h1 + x1 + h2 + x2 + h3 + x3), h1)
    ensures Contains(x + (p + h1 + x1 + h2 + x2 + h3 + x3), h2)
    ensures Contains(x + (p + h1 + x1 + h2 + x2 + h3 + x3), h3)
  {
    var s := x + (p + h1 + x1 + h2 + x2 + h3 + x3);
    assert s == (x + p) + h1 + (x1 + h2 + x2 + h3 + x3);
    ContainsPiece(x + p, h1, x1 + h2 + x2 + h3 + x3);
    assert s == (x + p + h1 + x1) + h2 + (x2 + h3 + x3);
    ContainsPiece(x + p + h1 + x1, h2, x2 + h3 + x3);
    assert s == (x + p + h1 + x1 + h2 + x2) + h3 + x3;
    ContainsPiece(x + p + h1 + x1 + h2 + x2, h3, x3);
  }

  /** The callbacks file defines the three hooks, whatever the component. */
  lemma CallbacksDefinesHooks(comp: Value)
    ensures Contains(CallbacksTemplate(comp), OnLoad)
    ensures Contains(CallbacksTemplate(comp), OnStart)
    ensures Contains(CallbacksTemplate(comp), OnEnd)
  {
    ContainsHooks(CallbacksHead + IdText(comp), CallbacksPre, OnLoad, CallbacksMid1, OnStart,
      CallbacksMid2, OnEnd, CallbacksPost);
  }

  /** The text between a fixed head and a fixed tail is determined by the whole. */
  lemma BetweenInjective(head: string, a: string, b: string, tail: string)
    requires head + a + tail == head + b + tail
    ensures a == b
  {
    var s := head + a + tail;
    assert |a| == |b|;
    assert a == s[|head|..|head| + |a|];
    assert b == (head + b + tail)[|head|..|head| + |b|];
  }

  /** The callbacks file embeds the component's Id: two components whose files agree
      have the same rendered Id, and a component without an Id gets the empty one. */
  lemma CallbacksEmbedsId(a: Value, b: Value)
    ensures CallbacksTemplate(a) == CallbacksTemplate(b) ==> IdText(a) == IdText(b)
    ensures a.Dict? && !HasKey(a.entries, "Id") ==> CallbacksTemplate(a) == CallbacksHead + CallbacksTail
  {
    if CallbacksTemplate(a) == CallbacksTemplate(b) {
      BetweenInjective(CallbacksHead, IdText(a), IdText(b), CallbacksTail);
    }
  }

  /** `os.remove(p)` guarded by `os.path.exists(p)`. */
  function RemoveIfExists(fs: FS, p: Path): (r: (FS, Outcome))
  {
    if p !in fs then (fs, Pass)
    else match Unlink(fs, p)
      case Ok(fs1) => (fs1, Pass)
      case Err(e) => (fs, Fail(e))
  }

  /** Removing guarded by existence deletes the file, never fails on a missing one, and
      fails only on a folder. */
  lemma RemoveIfExistsSpec(fs: FS, p: Path)
    ensures RemoveIfExists(fs, p).1 == Pass <==> !IsDir(fs, p)
    ensures RemoveIfExists(fs, p).1 == Pass ==> RemoveIfExists(fs, p).0 == fs - {p}
    ensures RemoveIfExists(fs, p).1.Fail? ==> RemoveIfExists(fs, p).0 == fs
  {
  }

  /** The loop of `remove`: each declared file under `path` that exists is deleted. */
  function RemoveDeclared(fs: FS, path: Path, files: seq<string>): (r: (FS, Outcome))
    decreases |files|
  {
    if files == [] then (fs, Pass)
    else
      var (fs1, o) := RemoveIfExists(fs, Join(path, files[0]));
      if o.Fail? then (fs1, o) else RemoveDeclared(fs1, path, files[1..])
  }

  /** The paths of the declared files under `path`. */
  function DeclaredPaths(path: Path, files: seq<string>): set<Path>
  {
    set f | f in files :: Join(path, f)
  }

  /** `remove` succeeds exactly when no declared name is a folder, and then deletes
      exactly the declared files and leaves every other entry alone. */
  lemma {:induction false} RemoveDeclaredSpec(fs: FS, path: Path, files: seq<string>)
    ensures RemoveDeclared(fs, path, files).1 == Pass <==>
      forall f :: f in files ==> !IsDir(fs, Join(path, f))
    ensures RemoveDeclared(fs, path, files).1 == Pass ==>
      RemoveDeclared(fs, path, files).0 == fs - DeclaredPaths(path, files)
    decreases |files|
  {
    if files != [] {
      var p := Join(path, files[0]);
      RemoveIfExistsSpec(fs, p);
      var (fs1, o) := RemoveIfExists(fs, p);
      if o == Pass {
        assert forall q :: q in fs1 ==> fs1[q] == fs[q];
        RemoveDeclaredSpec(fs1, path, files[1..]);
        assert forall f :: f in files <==> f == files[0] || f in files[1..];
        assert DeclaredPaths(path, files) == {p} + DeclaredPaths(path, files[1..]);
        assert fs - DeclaredPaths(path, files) == fs1 - DeclaredPaths(path, files[1..]);
        forall f | f in files[1..] && Join(path, f) != p
          ensures IsDir(fs, Join(path, f)) <==> IsDir(fs1, Join(path, f))
        {
        }
      }
    }
  }

  /** The copy loop of `duplicate`: each declared file that exists under `src` is copied
      byte for byte to the same name under `dst`. */
  function CopyDeclared(fs: FS, src: Path, dst: Path, files: seq<string>): (r: (FS, Outcome))
    decreases |files|
  {
    if files == [] then (fs, Pass)
    else
      var from := Join(src, files[0]);
      if from !in fs then CopyDeclared(fs, src, dst, files[1..])
      else match Copy(fs, from, Join(dst, files[0]))
        case Err(e) => (fs, Fail(e))
        case Ok(fs1) => CopyDeclared(fs1, src, dst, files[1..])
  }

  /** `q` is where the copy loop puts a declared file present at the source. */
  predicate IsCopyTarget(fs: FS, src: Path, dst: Path, files: seq<string>, q: Path)
  {
    |q| == |dst| + 1 && q[..|dst|] == dst && q[|dst|] in files && IsFile(fs, src + [q[|dst|]])
  }

  /** The conditions under which the copy loop meets no obstacle: the destination is a
      folder, holds no folder under a declared name, and every declared source that
      exists is a file. */
  predicate CopyClear(fs: FS, src: Path, dst: Path, files: seq<string>)
  {
    IsDir(fs, dst) &&
    (forall f :: f in files ==> f != "" && !IsDir(fs, dst + [f])) &&
    (forall f :: f in files && src + [f] in fs ==> IsFile(fs, src + [f]))
  }

  /** Copying into a folder one level below the source with nothing in the way: the
      loop succeeds; afterwards an entry exists exactly when it existed before or is the
      copy of a present declared file, a copy holds its source's contents, and every
      other entry is unchanged. */
  lemma {:induction false} CopyDeclaredAt(fs: FS, src: Path, dst: Path, files: seq<string>, q: Path)
    requires |dst| == |src| + 1 && dst[..|src|] == src
    requires CopyClear(fs, src, dst, files)
    ensures CopyDeclared(fs, src, dst, files).1 == Pass
    ensures var fs' := CopyDeclared(fs, src, dst, files).0;
      (q in fs' <==> q in fs || IsCopyTarget(fs, src, dst, files, q)) &&
      (q in fs' ==> fs'[q] == if IsCopyTarget(fs, src, dst, files, q) then fs[src + [q[|dst|]]] else fs[q])
    decreases |files|
  {
    if files != [] {
      var f := files[0];
      assert f in files;
      var rest := files[1..];
      assert forall g :: g in files <==> g == f || g in rest;
      var from := src + [f];
      assert Join(src, f) == from && Join(dst, f) == dst + [f];
      if from !in fs {
        CopyDeclaredAt(fs, src, dst, rest, q);
      } else {
        var fs1 := fs[dst + [f] := fs[from]];
        assert Copy(fs, from, dst + [f]) == Ok(fs1);
        forall g | true ensures src + [g] != dst + [f] {
          assert |src + [g]| != |dst + [f]|;
        }
        assert CopyClear(fs1, src, dst, rest);
        CopyDeclaredAt(fs1, src, dst, rest, q);
        assert IsCopyTarget(fs1, src, dst, rest, q) <==> IsCopyTarget(fs, src, dst, rest, q);
        if q == dst + [f] {
          assert q[..|dst|] == dst && q[|dst|] == f;
          assert IsCopyTarget(fs, src, dst, files, q);
        }
      }
    }
  }

  /** The copy loop of `duplicate` into `<path>/<id>` when the destination folder was
      created first.  */
  function DuplicateSpec(fs: FS, path: Path, newId: string, files: seq<string>): (r: (FS, Outcome))
    ensures newId == "" ==> r == (fs, Fail(ValueError("New ID must be provided")))
  {
    if newId == "" then (fs, Fail(ValueError("New ID must be provided")))
    else
      var full := path + [newId];
      if full in fs then CopyDeclared(fs, path, full, files)
      else match MakeDirs(fs, full)
        case Err(e) => (fs, Fail(e))
        case Ok(fs1) => CopyDeclared(fs1, path, full, files)
  }

  /** `duplicate` into a new folder: it succeeds, creates `<path>/<new_id>`, puts there
      a copy of every present declared file, and changes nothing else. A new Id equal
      to a declared file name is excluded: the new folder would then shadow that
      file's source and the copy would fail. */
  lemma DuplicateIntoNewFolder(fs: FS, path: Path, newId: string, files: seq<string>, q: Path)
    requires WellFormed(fs) && IsDir(fs, path) && newId != "" && newId !in files && path + [newId] !in fs
    requires forall f :: f in files ==> f != "" && (path + [f] in fs ==> IsFile(fs, path + [f]))
    ensures DuplicateSpec(fs, path, newId, files).1 == Pass
    ensures var fs' := DuplicateSpec(fs, path, newId, files).0;
      var full := path + [newId];
      (q in fs' <==> q in fs || q == full || IsCopyTarget(fs, path, full, files, q)) &&
      (q in fs' ==> fs'[q] == if q == full then Dir
                              else if IsCopyTarget(fs, path, full, files, q) then fs[path + [q[|full|]]]
                              else fs[q])
  {
    var full := path + [newId];
    MakeDirsChild(fs, path, newId);
    var fs1 := fs[full := Dir];
    forall f | f in files ensures !IsDir(fs1, full + [f]) {
      assert Parent(full + [f]) == full;
    }
    assert full[..|path|] == path;
    CopyDeclaredAt(fs1, path, full, files, q);
    if IsCopyTarget(fs1, path, full, files, q) || IsCopyTarget(fs, path, full, files, q) {
      assert q[|full|] != newId;
      assert path + [q[|full|]] != full;
    }
  }

  /** A side-file descriptor bound to a component folder. */
  class DataDesc {
    const path: Path
    const files: seq<string>

    constructor (path: Path, files: seq<string>)
      ensures this.path == path && this.files == files
    {
      this.path := path;
      this.files := files;
    }

    /** `remove_file`: deletes `<path>/<filename>` if it exists. */
    method RemoveFile(disk: Disk, filename: string) returns (o: Outcome)
      modifies disk
      ensures (disk.fs, o) == RemoveIfExists(old(disk.fs), Join(path, filename))
      ensures old(disk.Valid()) ==> disk.Valid()
    {
      var p := Join(path, filename);
      o := Pass;
      if p in disk.fs {
        o := disk.Delete(p);
      }
    }

    /** `remove`: deletes every declared file that exists. */
    method Remove(disk: Disk) returns (o: Outcome)
      modifies disk
      ensures (disk.fs, o) == RemoveDeclared(old(disk.fs), path, files)
      ensures old(disk.Valid()) ==> disk.Valid()
    {
      var i := 0;
      while i < |files|
        invariant 0 <= i <= |files|
        invariant RemoveDeclared(old(disk.fs), path, files) == RemoveDeclared(disk.fs, path, files[i..])
        invariant old(disk.Valid()) ==> disk.Valid()
      {
        assert files[i..][0] == files[i] && files[i..][1..] == files[i + 1..];
        var p := Join(path, files[i]);
        if p in disk.fs {
          o := disk.Delete(p);
          if o.Fail? {
            return;
          }
        }
        i := i + 1;
      }
      o := Pass;
    }

    /** `duplicate(new_id)`: creates `<path>/<new_id>` and copies every declared file
        present in `path` into it. */
    method Duplicate(disk: Disk, newId: string) returns (o: Outcome)
      modifies disk
      ensures (disk.fs, o) == DuplicateSpec(old(disk.fs), path, newId, files)
      ensures old(disk.Valid()) ==> disk.Valid()
    {
      if newId == "" {
        return Fail(ValueError("New ID must be provided"));
      }
      var full := path + [newId];
      if full !in disk.fs {
        o := disk.Mkdir(full);
        if o.Fail? {
          return;
        }
      }
      ghost var start := disk.fs;
      var i := 0;
      while i < |files|
        invariant 0 <= i <= |files|
        invariant CopyDeclared(start, path, full, files) == CopyDeclared(disk.fs, path, full, files[i..])
        invariant old(disk.Valid()) ==> disk.Valid()
      {
        assert files[i..][0] == files[i] && files[i..][1..] == files[i + 1..];
        var from := Join(path, files[i]);
        if from in disk.fs {
          var r := Copy(disk.fs, from, Join(full, files[i]));
          if r.Err? {
            return Fail(r.error);
          }
          CopyKeepsWellFormed(disk.fs, from, Join(full, files[i]));
          disk.fs := r.value;
        }
        i := i + 1;
      }
      o := Pass;
    }
  }

  lemma CopyKeepsWellFormed(fs: FS, src: Path, dst: Path)
    ensures WellFormed(fs) && Copy(fs, src, dst).Ok? ==> WellFormed(Copy(fs, src, dst).value)
  {
  }
}

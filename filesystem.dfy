/** The filesystem the modelled code reads and writes, as `pathlib`, `os`, `shutil`
    and `json` present it. A path is a sequence of names below the root the component
    code works in; a file holds text. JSON encoding is a codec supplied by the caller. */
module FileSystem {
  import opened Wrappers
  import opened Values

  type Path = seq<string>

  datatype Node = Dir | File(text: string)

  type FS = map<Path, Node>

  /** `p / name` in `pathlib`; joining the empty string leaves the path as it is. */
  function Join(p: Path, name: string): Path
  {
    if name == "" then p else p + [name]
  }

  /** A name that `p / name` appends as exactly one child of `p`: not empty, not `.`
      or `..`, and without a separator. */
  predicate PlainName(name: string)
  {
    name != "" && name != "." && name != ".." && '/' !in name
  }

  /** `p / a / b / ...` for a relative path given as its names. */
  function JoinAll(p: Path, names: seq<string>): Path
    decreases |names|
  {
    if names == [] then p else JoinAll(Join(p, names[0]), names[1..])
  }

  /** Joining names none of which is empty appends them. */
  lemma {:induction false} JoinAllPlain(p: Path, names: seq<string>)
    requires forall i :: 0 <= i < |names| ==> names[i] != ""
    ensures JoinAll(p, names) == p + names
    decreases |names|
  {
    if names != [] {
      JoinAllPlain(p + [names[0]], names[1..]);
      assert p + [names[0]] + names[1..] == p + names;
    }
  }

  function Parent(p: Path): Path
    requires p != []
  {
    p[..|p| - 1]
  }

  predicate IsPrefix(p: Path, q: Path)
  {
    |p| <= |q| && q[..|p|] == p
  }

  predicate IsDir(fs: FS, p: Path)
  {
    p in fs && fs[p] == Dir
  }

  predicate IsFile(fs: FS, p: Path)
  {
    p in fs && fs[p].File?
  }

  /** The root is a folder and every other entry sits inside a folder. */
  predicate WellFormed(fs: FS)
  {
    IsDir(fs, []) && forall p :: p in fs && p != [] ==> IsDir(fs, Parent(p))
  }

  /** `p.read_text()`. */
  function ReadText(fs: FS, p: Path): (r: Result<string>)
    ensures r.Ok? <==> IsFile(fs, p)
    ensures r.Ok? ==> fs[p] == File(r.value)
    ensures p !in fs ==> r == Err(FileNotFoundError(p))
  {
    if p !in fs then Err(FileNotFoundError(p))
    else match fs[p]
      case Dir => Err(IsADirectoryError(p))
      case File(t) => Ok(t)
  }

  /** `p.write_text(t)` / `open(p, 'w')`: creates or truncates a file inside an
      existing folder. */
  function WriteText(fs: FS, p: Path, t: string): (r: Result<FS>)
    ensures r.Ok? <==> p != [] && IsDir(fs, Parent(p)) && !IsDir(fs, p)
    ensures r.Ok? ==> r.value == fs[p := File(t)]
  {
    if p == [] || IsDir(fs, p) then Err(IsADirectoryError(p))
    else if Parent(p) !in fs then Err(FileNotFoundError(p))
    else if fs[Parent(p)] != Dir then Err(NotADirectoryError(p))
    else Ok(fs[p := File(t)])
  }

  /** `p.mkdir(parents=True, exist_ok=True)`: every missing ancestor and `p` itself
      become folders; an existing file on the way raises `FileExistsError`. */
  function MakeDirs(fs: FS, p: Path): (r: Result<FS>)
    decreases |p|
  {
    if p == [] then (if IsFile(fs, []) then Err(FileExistsError([])) else Ok(fs[[] := Dir]))
    else match MakeDirs(fs, Parent(p))
      case Err(e) => Err(e)
      case Ok(fs1) =>
        if p !in fs1 then Ok(fs1[p := Dir])
        else if fs1[p] == Dir then Ok(fs1)
        else Err(FileExistsError(p))
  }

  /** `if not p.exists(): p.mkdir(parents=True, exist_ok=True)`: an existing entry,
      folder or file, is left alone. */
  function MakeDirsIfMissing(fs: FS, p: Path): (r: Result<FS>)
    ensures p in fs ==> r == Ok(fs)
    ensures p !in fs ==> r == MakeDirs(fs, p)
  {
    if p in fs then Ok(fs) else MakeDirs(fs, p)
  }

  /** The folders `MakeDirs(fs, p)` creates: `p` and its ancestors. */
  function Ancestors(p: Path): set<Path>
  {
    set i | 0 <= i <= |p| :: p[..i]
  }

  lemma {:induction false} AncestorsParent(p: Path)
    requires p != []
    ensures Ancestors(p) == Ancestors(Parent(p)) + {p}
  {
    forall q | q in Ancestors(p) ensures q in Ancestors(Parent(p)) + {p} {
      var i :| 0 <= i <= |p| && q == p[..i];
      if i < |p| {
        assert q == Parent(p)[..i];
      }
    }
    forall q | q in Ancestors(Parent(p)) ensures q in Ancestors(p) {
      var i :| 0 <= i <= |Parent(p)| && q == Parent(p)[..i];
      assert q == p[..i];
    }
    assert p == p[..|p|];
  }

  /** `MakeDirs` fails exactly when a file sits on the way, and otherwise adds exactly
      the missing ancestors of `p` as folders and leaves every existing entry alone. */
  lemma {:induction false} MakeDirsSpec(fs: FS, p: Path)
    ensures MakeDirs(fs, p).Ok? <==> forall q :: q in Ancestors(p) ==> !IsFile(fs, q)
    ensures MakeDirs(fs, p).Ok? ==>
      var fs' := MakeDirs(fs, p).value;
      fs'.Keys == fs.Keys + Ancestors(p) &&
      (forall q :: q in fs ==> fs'[q] == fs[q]) &&
      (forall q :: q in Ancestors(p) ==> fs'[q] == Dir)
    decreases |p|
  {
    if p == [] {
      assert Ancestors(p) == {[]} by {
        assert p[..0] == [];
      }
    } else {
      AncestorsParent(p);
      MakeDirsSpec(fs, Parent(p));
      if MakeDirs(fs, Parent(p)).Ok? {
        var fs1 := MakeDirs(fs, Parent(p)).value;
        if p in fs && fs[p].File? {
          assert fs1[p] == fs[p];
        }
      }
    }
  }

  /** A well-formed tree stays well formed when folders are created. */
  lemma MakeDirsWellFormed(fs: FS, p: Path)
    requires WellFormed(fs)
    ensures MakeDirs(fs, p).Ok? ==> WellFormed(MakeDirs(fs, p).value)
  {
    MakeDirsSpec(fs, p);
    if MakeDirs(fs, p).Ok? {
      var fs' := MakeDirs(fs, p).value;
      forall q | q in fs' && q != [] ensures IsDir(fs', Parent(q)) {
        if q in Ancestors(p) {
          var i :| 0 <= i <= |p| && q == p[..i];
          assert Parent(q) == p[..i - 1];
          assert Parent(q) in Ancestors(p);
        }
      }
    }
  }

  /** In a well-formed tree, creating a folder that exists changes nothing. */
  lemma {:induction false} MakeDirsExisting(fs: FS, p: Path)
    requires WellFormed(fs) && IsDir(fs, p)
    ensures MakeDirs(fs, p) == Ok(fs)
    decreases |p|
  {
    if p == [] {
      assert fs[[] := Dir] == fs;
    } else {
      MakeDirsExisting(fs, Parent(p));
    }
  }

  /** In a well-formed tree, creating a missing folder inside an existing one adds just
      that folder. */
  lemma MakeDirsChild(fs: FS, p: Path, name: string)
    requires WellFormed(fs) && IsDir(fs, p) && p + [name] !in fs
    ensures MakeDirs(fs, p + [name]) == Ok(fs[p + [name] := Dir])
  {
    assert Parent(p + [name]) == p;
    MakeDirsExisting(fs, p);
  }

  /** `p.parent` in `pathlib`; the root is its own parent. */
  function Dirname(p: Path): Path
  {
    if p == [] then [] else Parent(p)
  }

  /** `if not p.parent.exists(): p.parent.mkdir(parents=True, exist_ok=True)` and then
      `open(p, 'w').write(t)`. Folders created before a failing write stay. The write
      puts `t` at `p`, keeps every other entry, and adds nothing but `p` and the folders
      above it. */
  function WriteCreatingParent(fs: FS, p: Path, t: string): (r: (FS, Outcome))
    ensures r.1 == Pass ==> p in r.0 && r.0[p] == File(t)
    ensures forall q :: q in fs && q != p ==> q in r.0 && r.0[q] == fs[q]
    ensures r.0.Keys <= fs.Keys + Ancestors(Dirname(p)) + {p}
    ensures IsDir(fs, Dirname(p)) && p != [] && !IsDir(fs, p) ==> r == (fs[p := File(t)], Pass)
  {
    MakeDirsSpec(fs, Dirname(p));
    match MakeDirsIfMissing(fs, Dirname(p))
    case Err(e) => (fs, Fail(e))
    case Ok(fs1) =>
      match WriteText(fs1, p, t)
      case Err(e) => (fs1, Fail(e))
      case Ok(fs2) => (fs2, Pass)
  }

  /** A successful write keeps a tree well formed. */
  lemma WriteTextWellFormed(fs: FS, p: Path, t: string)
    requires WellFormed(fs)
    ensures WriteText(fs, p, t).Ok? ==> WellFormed(WriteText(fs, p, t).value)
  {
  }

  /** `p.unlink()`: removes a file; a folder or a missing path raises. */
  function Unlink(fs: FS, p: Path): (r: Result<FS>)
    ensures r.Ok? <==> IsFile(fs, p)
    ensures r.Ok? ==> r.value == fs - {p}
  {
    if p !in fs then Err(FileNotFoundError(p))
    else if fs[p] == Dir then Err(IsADirectoryError(p))
    else Ok(fs - {p})
  }

  /** `shutil.rmtree(p)`: removes a folder and everything below it. */
  function RemoveTree(fs: FS, p: Path): (r: Result<FS>)
    ensures r.Ok? <==> IsDir(fs, p)
    ensures r.Ok? ==> forall q :: q in r.value <==> q in fs && !IsPrefix(p, q)
    ensures r.Ok? ==> forall q :: q in r.value ==> r.value[q] == fs[q]
  {
    if p !in fs then Err(FileNotFoundError(p))
    else if fs[p] != Dir then Err(NotADirectoryError(p))
    else Ok(map q | q in fs && !IsPrefix(p, q) :: fs[q])
  }

  /** Removing a subtree other than the root keeps a tree well formed. */
  lemma RemoveTreeWellFormed(fs: FS, p: Path)
    requires WellFormed(fs) && p != []
    ensures RemoveTree(fs, p).Ok? ==> WellFormed(RemoveTree(fs, p).value)
  {
    if RemoveTree(fs, p).Ok? {
      var fs' := RemoveTree(fs, p).value;
      assert !IsPrefix(p, []);
      forall q | q in fs' && q != [] ensures IsDir(fs', Parent(q)) {
      }
    }
  }

  /** Removing a file keeps a tree well formed. */
  lemma UnlinkWellFormed(fs: FS, p: Path)
    requires WellFormed(fs)
    ensures Unlink(fs, p).Ok? ==> WellFormed(Unlink(fs, p).value)
  {
  }

  /** `shutil.copy(src, dst)`: copies a file's text; when `dst` is a folder the copy
      goes inside it under the source's name. */
  function Copy(fs: FS, src: Path, dst: Path): (r: Result<FS>)
    ensures !IsFile(fs, src) ==> r.Err?
    ensures IsFile(fs, src) && !IsDir(fs, dst) ==> r == WriteText(fs, dst, fs[src].text)
  {
    match ReadText(fs, src)
    case Err(e) => Err(e)
    case Ok(t) => WriteText(fs, if IsDir(fs, dst) && src != [] then dst + [src[|src| - 1]] else dst, t)
  }

  /** The names directly inside folder `p`. */
  function Children(fs: FS, p: Path): set<string>
  {
    set q | q in fs && |q| == |p| + 1 && q[..|p|] == p :: q[|p|]
  }

  /** A name is inside folder `p` exactly when `p / name` is an entry. */
  lemma ChildIn(fs: FS, p: Path, n: string)
    ensures n in Children(fs, p) <==> p + [n] in fs
  {
    if n in Children(fs, p) {
      var q :| q in fs && |q| == |p| + 1 && q[..|p|] == p && q[|p|] == n;
      assert q == q[..|p|] + [q[|p|]];
    }
    if p + [n] in fs {
      assert (p + [n])[..|p|] == p && (p + [n])[|p|] == n;
    }
  }

  /** Writing the entry `p / n` adds `n` to the names of `p`. */
  lemma ChildrenPut(fs: FS, p: Path, n: string, v: Node)
    ensures Children(fs[p + [n] := v], p) == Children(fs, p) + {n}
  {
    forall m ensures m in Children(fs[p + [n] := v], p) <==> m in Children(fs, p) + {n} {
      ChildIn(fs[p + [n] := v], p, m);
      ChildIn(fs, p, m);
    }
  }

  /** The entries `p / n` for the names `n` of a set. */
  function Inside(p: Path, names: set<string>): (r: set<Path>)
    ensures forall n :: n in names ==> p + [n] in r
  {
    set n | n in names :: p + [n]
  }

  lemma InsideMember(p: Path, names: set<string>, n: string)
    ensures p + [n] in Inside(p, names) <==> n in names
  {
    if p + [n] in Inside(p, names) {
      var m :| m in names && p + [m] == p + [n];
      assert (p + [m])[|p|] == m;
    }
  }

  /** Removing the entries `p / n` for `n` in `names` removes exactly those names. */
  lemma ChildrenRemove(fs: FS, p: Path, names: set<string>)
    ensures Children(fs - Inside(p, names), p) == Children(fs, p) - names
  {
    forall m ensures m in Children(fs - Inside(p, names), p) <==> m in Children(fs, p) - names {
      ChildIn(fs - Inside(p, names), p, m);
      ChildIn(fs, p, m);
      InsideMember(p, names, m);
    }
  }

  /** `p.iterdir()` / `os.listdir(p)`: some order of the folder's entries. The order is
      decided by the operating system, so callers receive it as a parameter. */
  predicate IsListing(fs: FS, p: Path, names: seq<string>)
  {
    (forall i, j :: 0 <= i < j < |names| ==> names[i] != names[j]) &&
    (set n | n in names) == Children(fs, p)
  }

  /** `json.dump` and `json5.load` (or `json.load`), supplied by the caller. */
  datatype JsonCodec = JsonCodec(dump: Value -> string, load: string -> Result<Value>)

  /** Loading what was dumped gives back the same document. */
  ghost predicate Faithful(c: JsonCodec)
  {
    forall v :: JsonValue(v) ==> c.load(c.dump(v)) == Ok(v)
  }

  /** `_load_json_file`: a missing file raises `FileNotFoundError`. */
  function LoadJson(fs: FS, c: JsonCodec, p: Path): (r: Result<Value>)
    ensures p !in fs ==> r == Err(FileNotFoundError(p))
    ensures IsFile(fs, p) ==> r == c.load(fs[p].text)
    ensures IsDir(fs, p) ==> r == Err(IsADirectoryError(p))
  {
    if p !in fs then Err(FileNotFoundError(p))
    else
      match ReadText(fs, p)
      case Err(e) => Err(e)
      case Ok(t) => c.load(t)
  }

  /** `json.dump(v, open(p, 'w'))`: the file is opened, which creates or truncates it,
      and then written; a value JSON cannot encode raises `TypeError` after the file
      was opened. */
  function SaveJson(fs: FS, c: JsonCodec, p: Path, v: Value): (r: (FS, Outcome))
    ensures JsonValue(v) && WriteText(fs, p, "").Ok? ==> r == (fs[p := File(c.dump(v))], Pass)
    ensures WriteText(fs, p, "").Err? ==> r.0 == fs && r.1.Fail?
  {
    match WriteText(fs, p, "")
    case Err(e) => (fs, Fail(e))
    case Ok(truncated) =>
      if JsonValue(v) then (fs[p := File(c.dump(v))], Pass)
      else (truncated, Fail(TypeError("Object is not JSON serializable")))
  }

  /** Dumping a document keeps a tree well formed, whether or not it succeeds. */
  lemma SaveJsonWellFormed(fs: FS, c: JsonCodec, p: Path, v: Value)
    requires WellFormed(fs)
    ensures WellFormed(SaveJson(fs, c, p, v).0)
  {
    WriteTextWellFormed(fs, p, "");
    WriteTextWellFormed(fs, p, c.dump(v));
  }

  /** A successful dump wrote a document JSON can encode, and only at `p`. */
  lemma SaveJsonPass(fs: FS, c: JsonCodec, p: Path, v: Value)
    requires SaveJson(fs, c, p, v).1 == Pass
    ensures JsonValue(v) && WriteText(fs, p, "").Ok?
    ensures SaveJson(fs, c, p, v).0 == fs[p := File(c.dump(v))]
  {
  }

  /** Saving and loading a document at one path gives it back. */
  lemma SaveLoadJson(fs: FS, c: JsonCodec, p: Path, v: Value)
    requires Faithful(c) && JsonValue(v)
    requires SaveJson(fs, c, p, v).1 == Pass
    ensures LoadJson(SaveJson(fs, c, p, v).0, c, p) == Ok(v)
  {
  }

  /** The filesystem as a mutable object, so that the component code can change it
      step by step. */
  class Disk {
    var fs: FS

    ghost predicate Valid()
      reads this
    {
      WellFormed(fs)
    }

    constructor (fs0: FS)
      ensures fs == fs0
    {
      fs := fs0;
    }

    method Mkdir(p: Path) returns (o: Outcome)
      modifies this
      ensures var r := MakeDirs(old(fs), p);
        if r.Ok? then fs == r.value && o == Pass else fs == old(fs) && o == Fail(r.error)
      ensures old(Valid()) ==> Valid()
    {
      if Valid() {
        MakeDirsWellFormed(fs, p);
      }
      var r := MakeDirs(fs, p);
      if r.Ok? {
        fs := r.value;
        o := Pass;
      } else {
        o := Fail(r.error);
      }
    }

    method MkdirIfMissing(p: Path) returns (o: Outcome)
      modifies this
      ensures var r := MakeDirsIfMissing(old(fs), p);
        if r.Ok? then fs == r.value && o == Pass else fs == old(fs) && o == Fail(r.error)
      ensures old(Valid()) ==> Valid()
    {
      if p in fs {
        o := Pass;
      } else {
        o := Mkdir(p);
      }
    }

    method Write(p: Path, t: string) returns (o: Outcome)
      modifies this
      ensures var r := WriteText(old(fs), p, t);
        if r.Ok? then fs == r.value && o == Pass else fs == old(fs) && o == Fail(r.error)
      ensures old(Valid()) ==> Valid()
    {
      var r := WriteText(fs, p, t);
      if r.Ok? {
        fs := r.value;
        o := Pass;
      } else {
        o := Fail(r.error);
      }
    }

    method Delete(p: Path) returns (o: Outcome)
      modifies this
      ensures var r := Unlink(old(fs), p);
        if r.Ok? then fs == r.value && o == Pass else fs == old(fs) && o == Fail(r.error)
      ensures old(Valid()) ==> Valid()
    {
      var r := Unlink(fs, p);
      if r.Ok? {
        fs := r.value;
        o := Pass;
      } else {
        o := Fail(r.error);
      }
    }

    method Rmtree(p: Path) returns (o: Outcome)
      modifies this
      ensures var r := RemoveTree(old(fs), p);
        if r.Ok? then fs == r.value && o == Pass else fs == old(fs) && o == Fail(r.error)
      ensures old(Valid()) && p != [] ==> Valid()
    {
      if Valid() && p != [] {
        RemoveTreeWellFormed(fs, p);
      }
      var r := RemoveTree(fs, p);
      if r.Ok? {
        fs := r.value;
        o := Pass;
      } else {
        o := Fail(r.error);
      }
    }

    method WriteMakingParent(p: Path, t: string) returns (o: Outcome)
      modifies this
      ensures (fs, o) == WriteCreatingParent(old(fs), p, t)
    {
      o := MkdirIfMissing(Dirname(p));
      if o.Pass? {
        o := Write(p, t);
      }
    }

    method DumpJson(c: JsonCodec, p: Path, v: Value) returns (o: Outcome)
      modifies this
      ensures (fs, o) == SaveJson(old(fs), c, p, v)
      ensures old(Valid()) ==> Valid()
    {
      if Valid() {
        WriteTextWellFormed(fs, p, "");
      }
      var r := SaveJson(fs, c, p, v);
      fs, o := r.0, r.1;
    }
  }
}

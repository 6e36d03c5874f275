/** `is_env_path` (`environment_utils.py`): an environment is recognised by its marker
    file `<stem>.cse`. */
module EnvironmentUtils {
  import opened FileSystem
  import opened PyPaths

  /** `is_env_path(env_path)`: a relative path is first put below `.`; the marker named
      after the stem must be a regular file. */
  function IsEnvPath(fs: FS, cwd: Path, s: string): bool
  {
    var p := if IsAbsolute(s) then s else JoinText(".", s);
    IsFile(fs, Resolve(cwd, p) + [Stem(p) + ".cse"])
  }

  /** Putting a relative path below `.` names the same place and keeps its stem. */
  lemma DotPrefixKeeps(cwd: Path, s: string)
    requires !IsAbsolute(s)
    ensures Resolve(cwd, JoinText(".", s)) == Resolve(cwd, s)
    ensures Stem(JoinText(".", s)) == Stem(s)
  {
    assert JoinText(".", s) == "." + "/" + s;
    PartsConcat(".", s);
    SplitPlain(".");
    assert Clean(["."]) == Clean([]);
    assert Parts(".") == [];
    assert [] + Parts(s) == Parts(s);
  }

  /** The result is true exactly when `<p>/<stem>.cse` is a regular file; the `.` prefix
      changes nothing, and there is no other test. */
  lemma IsEnvPathMarker(fs: FS, cwd: Path, s: string)
    ensures IsEnvPath(fs, cwd, s) <==> IsFile(fs, Resolve(cwd, s) + [Stem(s) + ".cse"])
  {
    if !IsAbsolute(s) {
      DotPrefixKeeps(cwd, s);
    }
  }

  /** On a well-formed tree the marker's folder is the environment folder itself, so a
      true result means the path is a folder even though that is never asked. */
  lemma MarkerImpliesFolder(fs: FS, cwd: Path, s: string)
    requires WellFormed(fs) && IsEnvPath(fs, cwd, s)
    ensures IsDir(fs, Resolve(cwd, s))
  {
    IsEnvPathMarker(fs, cwd, s);
    var m := Resolve(cwd, s) + [Stem(s) + ".cse"];
    assert Parent(m) == Resolve(cwd, s);
  }

  /** A relative path `<a>/<n>` of two plain names. */
  lemma TwoNames(fs: FS, cwd: Path, a: string, n: string)
    requires '/' !in a && a != "" && a != "." && '/' !in n && n != "" && n != "."
    ensures IsEnvPath(fs, cwd, a + "/" + n) <==> IsFile(fs, cwd + [a, n] + [StemOf(n) + ".cse"])
  {
    var s := a + "/" + n;
    IsEnvPathMarker(fs, cwd, s);
    PartsConcat(a, n);
    PartsPlain(a);
    PartsPlain(n);
    assert Parts(s) == [a, n];
    assert !IsAbsolute(s) by {
      assert s[0] == a[0];
    }
  }

  /** The marker is named after the stem: a folder `<base>.<ext>` is an environment when
      it holds `<base>.cse`, not `<base>.<ext>.cse` (so `envs/demo.v2` needs `demo.cse`). */
  lemma DottedFolderMarker(fs: FS, cwd: Path, a: string, base: string, ext: string)
    requires '/' !in a && a != "" && a != "."
    requires '/' !in base && base != "" && '/' !in ext && '.' !in ext && ext != ""
    ensures IsEnvPath(fs, cwd, a + "/" + (base + "." + ext)) <==> IsFile(fs, cwd + [a, base + "." + ext] + [base + ".cse"])
  {
    var n := base + "." + ext;
    assert '/' !in n by {
      assert forall k :: 0 <= k < |n| ==> n[k] != '/' by {
        forall k | 0 <= k < |n| ensures n[k] != '/' {
          if k < |base| { assert n[k] == base[k]; }
          else if k > |base| { assert n[k] == ext[k - |base| - 1]; }
        }
      }
    }
    assert n != "." by { assert |n| >= 3; }
    var i := LastIndex(n, '.');
    assert n[|base|] == '.';
    forall k | |base| < k < |n| ensures n[k] != '.' {
      assert n[k] == ext[k - |base| - 1];
    }
    assert i == |base|;
    assert n[..|base|] == base;
    assert StemOf(n) == base;
    TwoNames(fs, cwd, a, n);
  }
}

/** Path strings as `os.path` and `pathlib` read them: components separated by `/`,
    a leading `/` for an absolute path, and the name, stem and extension of the last
    component. A path string is resolved to a filesystem path against the current
    folder; `..` is kept as a name, not resolved. */
module PyPaths {
  import opened FileSystem

  /** `s.split('/')`: always at least one piece. */
  function Split(s: string): (r: seq<string>)
    ensures |r| >= 1
    ensures forall i :: 0 <= i < |r| ==> '/' !in r[i]
    decreases |s|
  {
    if s == [] then [""]
    else if s[0] == '/' then [""] + Split(s[1..])
    else
      var t := Split(s[1..]);
      assert forall i :: 1 <= i < |t| ==> ([[s[0]] + t[0]] + t[1..])[i] == t[i];
      [[s[0]] + t[0]] + t[1..]
  }

  /** Splitting at a separator splits the two sides independently. */
  lemma {:induction false} SplitConcat(a: string, b: string)
    ensures Split(a + "/" + b) == Split(a) + Split(b)
    decreases |a|
  {
    if a == [] {
      assert a + "/" + b == "/" + b;
      assert ("/" + b)[1..] == b;
    } else {
      assert (a + "/" + b)[0] == a[0];
      assert (a + "/" + b)[1..] == a[1..] + "/" + b;
      SplitConcat(a[1..], b);
    }
  }

  /** A string without separators is a single piece. */
  lemma {:induction false} SplitPlain(s: string)
    requires '/' !in s
    ensures Split(s) == [s]
    decreases |s|
  {
    if s != [] {
      SplitPlain(s[1..]);
      assert [s[0]] + s[1..] == s;
    }
  }

  /** The pieces `pathlib` keeps: empty pieces and `.` are dropped. */
  function Clean(ps: seq<string>): (r: seq<string>)
    ensures forall i :: 0 <= i < |r| ==> r[i] != "" && r[i] != "." && r[i] in ps
    decreases |ps|
  {
    if ps == [] then []
    else if ps[0] == "" || ps[0] == "." then Clean(ps[1..])
    else [ps[0]] + Clean(ps[1..])
  }

  lemma {:induction false} CleanConcat(a: seq<string>, b: seq<string>)
    ensures Clean(a + b) == Clean(a) + Clean(b)
    decreases |a|
  {
    if a == [] {
      assert a + b == b;
    } else {
      assert (a + b)[0] == a[0] && (a + b)[1..] == a[1..] + b;
      CleanConcat(a[1..], b);
    }
  }

  /** The components of a path string. */
  function Parts(s: string): (r: seq<string>)
    ensures forall i :: 0 <= i < |r| ==> r[i] != "" && r[i] != "." && '/' !in r[i]
  {
    Clean(Split(s))
  }

  lemma PartsConcat(a: string, b: string)
    ensures Parts(a + "/" + b) == Parts(a) + Parts(b)
  {
    SplitConcat(a, b);
    CleanConcat(Split(a), Split(b));
  }

  /** A plain name is one component. */
  lemma PartsPlain(s: string)
    requires '/' !in s && s != "" && s != "."
    ensures Parts(s) == [s]
  {
    SplitPlain(s);
    assert [s][1..] == [];
    assert Clean([s]) == [s] + Clean([]);
    assert [s] + [] == [s];
  }

  predicate IsAbsolute(s: string)
  {
    |s| > 0 && s[0] == '/'
  }

  /** The filesystem path a path string names, relative to the current folder `cwd`. */
  function Resolve(cwd: Path, s: string): Path
  {
    (if IsAbsolute(s) then [] else cwd) + Parts(s)
  }

  /** `os.path.join(a, b)`: an absolute `b` replaces `a`; otherwise one separator is put
      between them unless `a` is empty or already ends with one. */
  function JoinText(a: string, b: string): (r: string)
    ensures IsAbsolute(b) ==> r == b
  {
    if IsAbsolute(b) then b
    else if a == "" || a[|a| - 1] == '/' then a + b
    else a + "/" + b
  }

  /** Joining names the same place as descending from the first path. */
  lemma ResolveJoin(cwd: Path, a: string, b: string)
    requires !IsAbsolute(b)
    ensures Resolve(cwd, JoinText(a, b)) == Resolve(cwd, a) + Parts(b)
  {
    if a == "" {
      assert a + b == b;
      assert Split("") == [""];
    } else if a[|a| - 1] == '/' {
      ResolveJoinSlash(cwd, a, b);
    } else {
      PartsConcat(a, b);
      assert (a + "/" + b)[0] == a[0];
    }
  }

  /** `ResolveJoin` when the first path ends in `/`, so joining only appends. */
  lemma ResolveJoinSlash(cwd: Path, a: string, b: string)
    requires !IsAbsolute(b) && a != "" && a[|a| - 1] == '/'
    ensures Resolve(cwd, a + b) == Resolve(cwd, a) + Parts(b)
  {
    var a' := a[..|a| - 1];
    assert a == a' + "/" + "";
    PartsConcat(a', "");
    assert a + b == a' + "/" + b;
    PartsConcat(a', b);
    assert Parts("") == [];
    assert Parts(a) == Parts(a');
    if a' == "" {
      assert IsAbsolute(a);
      assert IsAbsolute(a + b);
    } else {
      assert IsAbsolute(a) <==> IsAbsolute(a');
      assert IsAbsolute(a + b) <==> IsAbsolute(a');
    }
  }

  /** `Path(s).name`: the last component, `''` when there is none. */
  function Name(s: string): (r: string)
    ensures '/' !in r
  {
    var ps := Parts(s);
    if ps == [] then "" else ps[|ps| - 1]
  }

  /** The position of the last `c` in `s`, `-1` when it does not occur. */
  function LastIndex(s: string, c: char): (r: int)
    ensures -1 <= r < |s|
    ensures r >= 0 ==> s[r] == c && forall k :: r < k < |s| ==> s[k] != c
    ensures r == -1 ==> forall k :: 0 <= k < |s| ==> s[k] != c
    ensures c in s ==> r >= 0
    decreases |s|
  {
    if s == [] then -1
    else if s[|s| - 1] == c then |s| - 1
    else LastIndex(s[..|s| - 1], c)
  }

  /** `PurePath.stem` of a name: the name up to its last dot, unless that dot is the
      first or the last character. */
  function StemOf(n: string): (r: string)
    ensures |r| <= |n| && r == n[..|r|]
  {
    var i := LastIndex(n, '.');
    if 0 < i < |n| - 1 then n[..i] else n
  }

  /** `Path(s).stem`. */
  function Stem(s: string): (r: string)
    ensures '/' !in r
  {
    StemOf(Name(s))
  }

  /** `os.path.basename(s)`: the text after the last separator. */
  function Basename(s: string): (r: string)
    ensures '/' !in r
  {
    var ps := Split(s);
    ps[|ps| - 1]
  }

  /** `os.path.splitext(b)[0]` for a base name: the last dot starts the extension when
      some character before it is not a dot. */
  function SplitextRoot(b: string): (r: string)
    ensures |r| <= |b| && r == b[..|r|]
  {
    var i := LastIndex(b, '.');
    if i > 0 && exists k | 0 <= k < i :: b[k] != '.' then b[..i] else b
  }

  /** The stem cuts only the last extension: the folder `envs/demo.v2` has stem `demo.v2`
      minus `.v2`. */
  lemma StemOfDotted()
    ensures StemOf("demo.v2") == "demo"
    ensures Stem("envs/demo.v2") == "demo"
  {
    assert LastIndex("demo.v2", '.') == 4;
    assert "envs/demo.v2" == "envs" + "/" + "demo.v2";
    PartsConcat("envs", "demo.v2");
    PartsPlain("envs");
    PartsPlain("demo.v2");
  }

  /** `splitext` removes only the last extension, and a leading dot is not one. */
  lemma SplitextExamples()
    ensures SplitextRoot("PID.py") == "PID"
    ensures SplitextRoot("a.b.py") == "a.b"
    ensures SplitextRoot(".hidden") == ".hidden"
  {
    assert LastIndex("PID.py", '.') == 3;
    assert "PID.py"[0] != '.';
    assert LastIndex("a.b.py", '.') == 3;
    assert "a.b.py"[0] != '.';
    assert forall k :: 1 <= k < 7 ==> ".hidden"[k] != '.';
    assert LastIndex(".hidden", '.') == 0;
  }

  /** The stem and `splitext` disagree on a name ending in a dot: `pathlib` keeps it,
      `os.path` drops the dot. */
  lemma StemSplitextDisagree()
    ensures StemOf("env.") == "env."
    ensures SplitextRoot("env.") == "env"
  {
    assert LastIndex("env.", '.') == 3;
    assert "env."[0] != '.';
  }
}

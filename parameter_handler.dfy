/** The editor's parameter-file handler: where a component's parameter file lives, its
    duplication with the component Id substituted, and the generator of the Python
    source that declares the parameters as a dataclass. */
module ParameterHandler {
  import opened Wrappers
  import opened Strings
  import opened Values
  import opened FileSystem

  /** `Path(comp_path) / component["Id"] / rel`, where `rel` is the component's parameter
      file relative to its own folder. A missing Id is a `KeyError`, and an Id that is not
      a string cannot be joined. */
  function ParamFilePath(compPath: Path, component: Value, rel: Path): (r: Result<Path>)
    ensures r.Ok? <==> component.Dict? && HasKey(component.entries, "Id") && Lookup(component.entries, "Id").value.Str?
    ensures r.Ok? ==> r.value == JoinAll(Join(compPath, Lookup(component.entries, "Id").value.s), rel)
    ensures component.Dict? && !HasKey(component.entries, "Id") ==> r == Err(KeyError("Id"))
  {
    var id :- GetItem(component, "Id");
    var s :- AsString(id);
    Ok(JoinAll(Join(compPath, s), rel))
  }

  /** `if 'Id' not in component: raise ValueError(...)`. */
  function RequireId(component: Value): (o: Outcome)
    ensures o == Pass <==> In("Id", component) == Ok(true)
    ensures component.Dict? ==> (o == Pass <==> HasKey(component.entries, "Id"))
  {
    match In("Id", component)
    case Err(e) => Fail(e)
    case Ok(b) => if b then Pass else Fail(ValueError("Component must have 'Id' fields"))
  }

  /** The Id of a component whose parameter path resolved. */
  function IdOf(component: Value): string
    requires component.Dict? && HasKey(component.entries, "Id") && Lookup(component.entries, "Id").value.Str?
  {
    Lookup(component.entries, "Id").value.s
  }

  /** `duplicate_component_params(component, new_id, new_path)`: the source file, if it
      exists, is copied to `new_path` with every occurrence of the old Id replaced by the
      new one, creating the folder; an absent source gives `None` and writes nothing.
      Nothing but `new_path` and the folders above it changes. */
  function DuplicateSpec(fs: FS, compPath: Path, rel: Path, component: Value, newId: Value, newPath: Path): (r: (FS, Result<Option<Path>>))
    ensures RequireId(component).Fail? ==> r == (fs, Err(RequireId(component).error))
    ensures (RequireId(component) == Pass && ParamFilePath(compPath, component, rel).Ok? && ParamFilePath(compPath, component, rel).value !in fs) ==> r == (fs, Ok(None))
    ensures r.1.Ok? && r.1.value.Some? ==>
      ParamFilePath(compPath, component, rel).Ok? &&
      var src := ParamFilePath(compPath, component, rel).value;
      IsFile(fs, src) && newId.Str? && r.1.value.value == newPath && newPath in r.0 &&
      r.0[newPath] == File(Replace(fs[src].text, IdOf(component), newId.s))
    ensures forall q :: q in fs && q != newPath ==> q in r.0 && r.0[q] == fs[q]
    ensures r.0.Keys <= fs.Keys + Ancestors(Dirname(newPath)) + {newPath}
  {
    var chk := RequireId(component);
    if chk.Fail? then (fs, Err(chk.error))
    else match ParamFilePath(compPath, component, rel)
      case Err(e) => (fs, Err(e))
      case Ok(path) =>
        if path !in fs then (fs, Ok(None))
        else match ReadText(fs, path)
          case Err(e) => (fs, Err(e))
          case Ok(text) =>
            if !newId.Str? then (fs, Err(TypeError("replace() argument 2 must be str")))
            else
              var w := WriteCreatingParent(fs, newPath, Replace(text, IdOf(component), newId.s));
              if w.1.Fail? then (w.0, Err(w.1.error)) else (w.0, Ok(Some(newPath)))
  }

  /** `has_component_params`: the parameter file exists. */
  function HasSpec(fs: FS, compPath: Path, rel: Path, component: Value): (r: Result<bool>)
    ensures r.Ok? <==> ParamFilePath(compPath, component, rel).Ok?
    ensures r.Ok? ==> (r.value <==> ParamFilePath(compPath, component, rel).value in fs)
  {
    var path :- ParamFilePath(compPath, component, rel);
    Ok(path in fs)
  }

  /** `remove_component_params`: deletes the parameter file only if it exists. */
  function RemoveSpec(fs: FS, compPath: Path, rel: Path, component: Value): (r: (FS, Outcome))
    ensures ParamFilePath(compPath, component, rel).Ok? ==>
      var path := ParamFilePath(compPath, component, rel).value;
      (IsFile(fs, path) ==> r == (fs - {path}, Pass)) && (path !in fs ==> r == (fs, Pass))
    ensures r.1.Fail? ==> r.0 == fs
  {
    match ParamFilePath(compPath, component, rel)
    case Err(e) => (fs, Fail(e))
    case Ok(path) =>
      if path !in fs then (fs, Pass)
      else match Unlink(fs, path)
        case Err(e) => (fs, Fail(e))
        case Ok(fs') => (fs', Pass)
  }

  // ---------------------------------------------------------------------------
  // The parameter-source generator

  const SrcHead: string :=
    "\nfrom dataclasses import dataclass, field\nfrom typing import List, Dict, Any\nfrom csbenchlab.common_types import *\nimport numpy as np\n\n# Parameter file for component with id "
  const SrcMid: string := "\n\n\n@dataclass\nclass ComponentParams:\n"
  const SrcTail: string := "\n"

  /** `type(v).__name__`. */
  function TypeName(v: Value): string
  {
    match v
    case Null => "NoneType"
    case Bool(_) => "bool"
    case Int(_) => "int"
    case Float(_) => "float"
    case Str(_) => "str"
    case List(_) => "list"
    case Dict(_) => "dict"
    case Func(_) => "function"
    case NdArray(_) => "ndarray"
    case Opaque(t, _) => t
  }

  /** `is_special_string`: a MATLAB function handle or a file path marker. */
  predicate IsSpecial(v: Value)
  {
    v.Str? && (StartsWith(v.s, "csb_m_fh") || StartsWith(v.s, "csb_path:"))
  }

  /** The values the first pass writes a typed field for. */
  predicate Supported(v: Value)
  {
    !(v.Func? || v.Opaque? || IsSpecial(v))
  }

  /** The field line the first pass emits for `key: value`, tested in the source's order:
      bool before int, then float, plain str, None, array, list, dict; anything else is
      left for the second pass. */
  function FirstLine(key: string, v: Value, repr: Value -> string): (r: Option<string>)
    ensures r.Some? <==> Supported(v)
    ensures r.Some? ==> StartsWith(r.value, key + ": ")
  {
    var pre := key + ": ";
    var line := match v
      case Bool(b) => Some(pre + "bool = " + (if b then "True" else "False"))
      case Int(i) => Some(pre + "int = " + IntToString(i))
      case Float(_) => Some(pre + "float = " + repr(v))
      case Str(s) => if IsSpecial(v) then None else Some(pre + "str = '" + s + "'")
      case Null => Some(pre + "Any = None")
      case NdArray(elems) => Some(pre + "np.ndarray = np.array(" + repr(List(elems)) + ")")
      case List(items) =>
        if items == [] then Some(pre + "List[Any] = field(default_factory=list)")
        else Some(pre + "List[" + TypeName(items[0]) + "] = field(default_factory=lambda: " + repr(v) + ")")
      case Dict(_) => Some(pre + "Dict[str, Any] = field(default_factory=lambda: " + repr(v) + ")")
      case Func(_) => None
      case Opaque(_, _) => None;
    assert line.Some? ==> line.value[..|pre|] == pre;
    line
  }

  const PyHandleNote: string := " = None  ### EVALUATED FROM DEFAULT FUNCTION IF NONE"

  /** The line the second pass emits for `key: value`; `inRest` says whether the first
      pass set the key aside. Functions and special strings always get a line. */
  function SecondLine(key: string, v: Value, inRest: bool, repr: Value -> string): (r: Option<string>)
    ensures r.Some? <==> v.Func? || IsSpecial(v) || inRest
    ensures r.Some? ==> StartsWith(r.value, key + ": ") || StartsWith(r.value, "# " + key + ": ")
  {
    var pre := key + ": ";
    if v.Func? then
      assert (pre + "PyFunctionHandle" + PyHandleNote)[..|pre|] == pre;
      Some(pre + "PyFunctionHandle" + PyHandleNote)
    else if IsSpecial(v) then
      if StartsWith(v.s, "csb_m_fh") then
        assert (pre + "MatFunctionHandle" + PyHandleNote)[..|pre|] == pre;
        Some(pre + "MatFunctionHandle" + PyHandleNote)
      else
        var line := pre + "FilePath = '" + v.s[|"csb_path:"|..] + "'  # Path";
        assert line[..|pre|] == pre;
        Some(line)
    else if inRest then
      var line := "# " + pre + TypeName(v) + " = " + repr(v) + "  ### UNSUPPORTED TYPE, PLEASE EDIT MANUALLY";
      assert line[..|"# " + key + ": "|] == "# " + key + ": ";
      Some(line)
    else None
  }

  function OptLine(o: Option<string>): (r: seq<string>)
    ensures |r| == if o.Some? then 1 else 0
  {
    if o.Some? then [o.value] else []
  }

  /** The lines of the first pass, in parameter order. */
  function FirstFields(e: Entries, repr: Value -> string): seq<string>
    decreases |e|
  {
    if e == [] then []
    else FirstFields(e[..|e| - 1], repr) + OptLine(FirstLine(e[|e| - 1].0, e[|e| - 1].1, repr))
  }

  /** The keys the first pass set aside, in parameter order. */
  function RestKeys(e: Entries, repr: Value -> string): seq<string>
    decreases |e|
  {
    if e == [] then []
    else RestKeys(e[..|e| - 1], repr) + (if FirstLine(e[|e| - 1].0, e[|e| - 1].1, repr).None? then [e[|e| - 1].0] else [])
  }

  /** The lines of the second pass, in parameter order. */
  function SecondFields(e: Entries, rest: seq<string>, repr: Value -> string): seq<string>
    decreases |e|
  {
    if e == [] then []
    else SecondFields(e[..|e| - 1], rest, repr) + OptLine(SecondLine(e[|e| - 1].0, e[|e| - 1].1, e[|e| - 1].0 in rest, repr))
  }

  /** All field lines: the second pass comes after every first-pass line. */
  function Fields(e: Entries, repr: Value -> string): seq<string>
  {
    FirstFields(e, repr) + SecondFields(e, RestKeys(e, repr), repr)
  }

  /** `sep.join(xs)`. */
  function JoinWith(sep: string, xs: seq<string>): string
    decreases |xs|
  {
    if xs == [] then ""
    else if |xs| == 1 then xs[0]
    else JoinWith(sep, xs[..|xs| - 1]) + sep + xs[|xs| - 1]
  }

  /** `"    " + "\n    ".join(fields)`. */
  function FieldsText(fields: seq<string>): string
  {
    "    " + JoinWith("\n    ", fields)
  }

  /** The lines each indented by four spaces. */
  function Indented(fields: seq<string>): (r: seq<string>)
    ensures |r| == |fields|
    ensures forall i :: 0 <= i < |fields| ==> r[i] == "    " + fields[i]
  {
    seq(|fields|, i requires 0 <= i < |fields| => "    " + fields[i])
  }

  /** `{value["Name"]: value["DefaultValue"] for value in params}`: a later duplicate name
      overwrites the value but keeps the first position. */
  function ListParams(items: seq<Value>): (r: Result<Entries>)
    decreases |items|
  {
    if items == [] then Ok([])
    else
      var acc :- ListParams(items[..|items| - 1]);
      var it := items[|items| - 1];
      var name :- GetItem(it, "Name");
      var dv :- GetItem(it, "DefaultValue");
      var key :- AsString(name);
      Ok(Put(acc, key, dv))
  }

  /** The mapping the generator iterates: a dict as it is, a list of descriptors
      through `ListParams`; anything else has no `items()`. */
  function ParamsEntries(params: Value): (r: Result<Entries>)
    ensures params.Dict? ==> r == Ok(params.entries)
  {
    match params
    case Dict(e) => Ok(e)
    case List(items) => ListParams(items)
    case _ => Err(AttributeError("items"))
  }

  /** `make_python_params_file_src(params, component)`. */
  function ParamsSrc(params: Value, component: Value, repr: Value -> string): (r: Result<string>)
  {
    var e :- ParamsEntries(params);
    var id :- GetOr(component, "Id", Str(""));
    Ok(SrcHead + StrOf(id, repr) + SrcMid + FieldsText(Fields(e, repr)) + SrcTail)
  }

  /** `set_component_params`: the folder is created before the source is generated, so
      a generator error leaves it in place. */
  function SetSpec(fs: FS, compPath: Path, rel: Path, component: Value, params: Value, repr: Value -> string): (r: (FS, Result<Path>))
    ensures r.1.Ok? ==>
      ParamFilePath(compPath, component, rel).Ok? && ParamsSrc(params, component, repr).Ok? &&
      r.1.value == ParamFilePath(compPath, component, rel).value &&
      r.1.value in r.0 && r.0[r.1.value] == File(ParamsSrc(params, component, repr).value)
    ensures RequireId(component).Fail? ==> r == (fs, Err(RequireId(component).error))
  {
    var chk := RequireId(component);
    if chk.Fail? then (fs, Err(chk.error))
    else match ParamFilePath(compPath, component, rel)
      case Err(e) => (fs, Err(e))
      case Ok(path) =>
        match MakeDirsIfMissing(fs, Dirname(path))
        case Err(e) => (fs, Err(e))
        case Ok(fs1) =>
          match ParamsSrc(params, component, repr)
          case Err(e) => (fs1, Err(e))
          case Ok(src) =>
            match WriteText(fs1, path, src)
            case Err(e) => (fs1, Err(e))
            case Ok(fs2) => (fs2, Ok(path))
  }

  // ---------------------------------------------------------------------------
  // Properties of the generator

  /** Every key gets exactly one line: the first pass writes it, or the first pass sets it
      aside and the second pass writes it. */
  lemma KeyGetsOneLine(key: string, v: Value, repr: Value -> string)
    ensures FirstLine(key, v, repr).Some? ==> SecondLine(key, v, false, repr).None?
    ensures FirstLine(key, v, repr).None? ==> SecondLine(key, v, true, repr).Some?
  {
  }

  lemma {:induction false} RestKeysMember(e: Entries, repr: Value -> string, k: string)
    ensures k in RestKeys(e, repr) <==> exists j :: 0 <= j < |e| && e[j].0 == k && FirstLine(k, e[j].1, repr).None?
    decreases |e|
  {
    if e != [] {
      var p := e[..|e| - 1];
      RestKeysMember(p, repr, k);
      if k in RestKeys(p, repr) {
        var j :| 0 <= j < |p| && p[j].0 == k && FirstLine(k, p[j].1, repr).None?;
        assert e[j] == p[j];
      }
      if exists j :: 0 <= j < |e| && e[j].0 == k && FirstLine(k, e[j].1, repr).None? {
        var j :| 0 <= j < |e| && e[j].0 == k && FirstLine(k, e[j].1, repr).None?;
        if j < |p| {
          assert p[j] == e[j];
        }
      }
    }
  }

  /** With distinct keys, as in every dict, the generated class has exactly one line per
      parameter. */
  lemma {:induction false} FieldsCount(e: Entries, repr: Value -> string)
    requires DistinctKeys(e)
    ensures |Fields(e, repr)| == |e|
  {
    FieldsCountPrefix(e, repr, |e|);
    assert e[..|e|] == e;
  }

  lemma {:induction false} FieldsCountPrefix(e: Entries, repr: Value -> string, n: nat)
    requires DistinctKeys(e) && n <= |e|
    ensures |FirstFields(e[..n], repr)| + |SecondFields(e[..n], RestKeys(e, repr), repr)| == n
    decreases n
  {
    if n > 0 {
      var p := e[..n];
      assert p[..|p| - 1] == e[..n - 1];
      FieldsCountPrefix(e, repr, n - 1);
      var k := e[n - 1].0;
      RestKeysMember(e, repr, k);
      if k in RestKeys(e, repr) {
        var j :| 0 <= j < |e| && e[j].0 == k && FirstLine(k, e[j].1, repr).None?;
        assert j == n - 1;
      }
      KeyGetsOneLine(k, e[n - 1].1, repr);
    }
  }

  /** The first pass keeps parameter order: the lines of a concatenation are the lines of
      its parts, in order. */
  lemma {:induction false} FirstFieldsAppend(a: Entries, b: Entries, repr: Value -> string)
    ensures FirstFields(a + b, repr) == FirstFields(a, repr) + FirstFields(b, repr)
    decreases |b|
  {
    if b == [] {
      assert a + b == a;
    } else {
      var b' := b[..|b| - 1];
      assert (a + b)[..|a + b| - 1] == a + b';
      assert (a + b)[|a + b| - 1] == b[|b| - 1];
      FirstFieldsAppend(a, b', repr);
    }
  }

  /** The field block indents every line by four spaces and puts each on its own line. */
  lemma {:induction false} FieldsTextIndented(fields: seq<string>)
    requires fields != []
    ensures FieldsText(fields) == JoinWith("\n", Indented(fields))
    decreases |fields|
  {
    if |fields| > 1 {
      var p := fields[..|fields| - 1];
      FieldsTextIndented(p);
      assert Indented(fields)[..|fields| - 1] == Indented(p);
    }
  }

  /** A list of descriptors never repeats a key: later duplicates overwrite in place. */
  lemma {:induction false} ListParamsDistinct(items: seq<Value>)
    requires ListParams(items).Ok?
    ensures DistinctKeys(ListParams(items).value)
    decreases |items|
  {
    if items != [] {
      var acc := ListParams(items[..|items| - 1]).value;
      ListParamsDistinct(items[..|items| - 1]);
      var it := items[|items| - 1];
      PutDistinct(acc, GetItem(it, "Name").value.s, GetItem(it, "DefaultValue").value);
    }
  }

  /** The last descriptor with a name decides its default value. */
  lemma LastDescriptorWins(items: seq<Value>, it: Value)
    requires ListParams(items + [it]).Ok?
    ensures var n := GetItem(it, "Name").value.s;
      Lookup(ListParams(items + [it]).value, n) == Some(GetItem(it, "DefaultValue").value)
  {
    assert (items + [it])[..|items + [it]| - 1] == items;
    assert (items + [it])[|items + [it]| - 1] == it;
    var acc := ListParams(items).value;
    LookupPutSame(acc, GetItem(it, "Name").value.s, GetItem(it, "DefaultValue").value);
  }

  /** The generated header names the component's Id (`''` without one). */
  lemma SrcNamesId(params: Value, component: Value, repr: Value -> string)
    requires ParamsSrc(params, component, repr).Ok?
    ensures var src := ParamsSrc(params, component, repr).value;
      var id := if HasKey(component.entries, "Id") then StrOf(Lookup(component.entries, "Id").value, repr) else "";
      StartsWith(src, SrcHead + id + SrcMid)
  {
    var src := ParamsSrc(params, component, repr).value;
    var id := GetOr(component, "Id", Str("")).value;
    var head := SrcHead + StrOf(id, repr) + SrcMid;
    assert src == head + (FieldsText(Fields(ParamsEntries(params).value, repr)) + SrcTail);
    assert src[..|head|] == head;
  }

  // ---------------------------------------------------------------------------
  // The handler

  /** `ParameterHandler(comp_path)`. */
  class ParameterHandler {
    const compPath: Path
    /** `get_component_relative_param_file_path`, which is not part of this model. */
    const relParam: Value -> Path

    constructor (compPath: Path, relParam: Value -> Path)
      ensures this.compPath == compPath && this.relParam == relParam
    {
      this.compPath := compPath;
      this.relParam := relParam;
    }

    method DuplicateComponentParams(disk: Disk, component: Value, newId: Value, newPath: Path) returns (r: Result<Option<Path>>)
      modifies disk
      ensures (disk.fs, r) == DuplicateSpec(old(disk.fs), compPath, relParam(component), component, newId, newPath)
    {
      var chk := RequireId(component);
      if chk.Fail? {
        return Err(chk.error);
      }
      var path := ParamFilePath(compPath, component, relParam(component));
      if path.Err? {
        return Err(path.error);
      }
      if path.value !in disk.fs {
        return Ok(None);
      }
      var text := ReadText(disk.fs, path.value);
      if text.Err? {
        return Err(text.error);
      }
      if !newId.Str? {
        return Err(TypeError("replace() argument 2 must be str"));
      }
      var src := Replace(text.value, IdOf(component), newId.s);
      var o := disk.WriteMakingParent(newPath, src);
      if o.Fail? {
        return Err(o.error);
      }
      r := Ok(Some(newPath));
    }

    method HasComponentParams(disk: Disk, component: Value) returns (r: Result<bool>)
      ensures r == HasSpec(disk.fs, compPath, relParam(component), component)
    {
      var path := ParamFilePath(compPath, component, relParam(component));
      if path.Err? {
        return Err(path.error);
      }
      r := Ok(path.value in disk.fs);
    }

    method RemoveComponentParams(disk: Disk, component: Value) returns (o: Outcome)
      modifies disk
      ensures (disk.fs, o) == RemoveSpec(old(disk.fs), compPath, relParam(component), component)
    {
      var path := ParamFilePath(compPath, component, relParam(component));
      if path.Err? {
        return Fail(path.error);
      }
      if path.value in disk.fs {
        o := disk.Delete(path.value);
      } else {
        o := Pass;
      }
    }

    method SetComponentParams(disk: Disk, component: Value, params: Value, repr: Value -> string) returns (r: Result<Path>)
      modifies disk
      ensures (disk.fs, r) == SetSpec(old(disk.fs), compPath, relParam(component), component, params, repr)
    {
      var chk := RequireId(component);
      if chk.Fail? {
        return Err(chk.error);
      }
      var path := ParamFilePath(compPath, component, relParam(component));
      if path.Err? {
        return Err(path.error);
      }
      var o := disk.MkdirIfMissing(Dirname(path.value));
      if o.Fail? {
        return Err(o.error);
      }
      var src := MakeParamsFileSrc(params, component, repr);
      if src.Err? {
        return Err(src.error);
      }
      o := disk.Write(path.value, src.value);
      if o.Fail? {
        return Err(o.error);
      }
      r := Ok(path.value);
    }
  }

  lemma FirstPassStep(e: Entries, repr: Value -> string, i: nat)
    requires i < |e|
    ensures FirstFields(e[..i + 1], repr) == FirstFields(e[..i], repr) + OptLine(FirstLine(e[i].0, e[i].1, repr))
    ensures RestKeys(e[..i + 1], repr) == RestKeys(e[..i], repr) + (if FirstLine(e[i].0, e[i].1, repr).None? then [e[i].0] else [])
  {
    assert e[..i + 1][..i] == e[..i];
  }

  lemma SecondPassStep(e: Entries, rest: seq<string>, repr: Value -> string, i: nat)
    requires i < |e|
    ensures SecondFields(e[..i + 1], rest, repr) == SecondFields(e[..i], rest, repr) + OptLine(SecondLine(e[i].0, e[i].1, e[i].0 in rest, repr))
  {
    assert e[..i + 1][..i] == e[..i];
  }

  /** `make_python_params_file_src`: the two passes over the parameters. */
  method MakeParamsFileSrc(params: Value, component: Value, repr: Value -> string) returns (r: Result<string>)
    ensures r == ParamsSrc(params, component, repr)
  {
    var e :- ParamsEntries(params);
    var first, restKeys := FirstPass(e, repr);
    var second := SecondPass(e, restKeys, repr);
    var id :- GetOr(component, "Id", Str(""));
    r := Ok(SrcHead + StrOf(id, repr) + SrcMid + FieldsText(first + second) + SrcTail);
  }

  /** The first pass: the fields whose line is known from the value alone, and the keys
      left for the second pass. */
  method FirstPass(e: Entries, repr: Value -> string) returns (fields: seq<string>, restKeys: seq<string>)
    ensures fields == FirstFields(e, repr) && restKeys == RestKeys(e, repr)
  {
    fields, restKeys := [], [];
    var i := 0;
    while i < |e|
      invariant 0 <= i <= |e|
      invariant fields == FirstFields(e[..i], repr) && restKeys == RestKeys(e[..i], repr)
    {
      FirstPassStep(e, repr, i);
      var line := FirstLine(e[i].0, e[i].1, repr);
      if line.Some? {
        fields := fields + [line.value];
      } else {
        restKeys := restKeys + [e[i].0];
      }
      i := i + 1;
    }
    assert e[..|e|] == e;
  }

  /** The second pass, over the keys the first one left. */
  method SecondPass(e: Entries, restKeys: seq<string>, repr: Value -> string) returns (fields: seq<string>)
    ensures fields == SecondFields(e, restKeys, repr)
  {
    fields := [];
    var i := 0;
    while i < |e|
      invariant 0 <= i <= |e|
      invariant fields == SecondFields(e[..i], restKeys, repr)
    {
      SecondPassStep(e, restKeys, repr, i);
      var line := SecondLine(e[i].0, e[i].1, e[i].0 in restKeys, repr);
      if line.Some? {
        fields := fields + [line.value];
      }
      i := i + 1;
    }
    assert e[..|e|] == e;
  }
}

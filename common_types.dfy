/** Scenario options and the string encodings that tell parameter evaluation to load a
    value from a file or to evaluate it in MATLAB (`common_types.py`). Decorated classes
    and functions are modelled by their attribute namespaces. */
module CommonTypes {
  import opened Wrappers
  import opened Strings
  import opened Values

  /** `ScenarioOptions(reference, ic, ...).data`, keys in the order the source writes
      them. */
  function ScenarioOptionsData(reference: Value, ic: Value, systemOverrides: Value, disturbanceOverrides: Value,
                               numEvaluations: Value, randomSeed: Value): (r: Value)
    ensures r.Dict?
  {
    Dict([("SystemIc", ic), ("SystemParameterOverrides", systemOverrides), ("Reference", reference),
          ("DisturbanceParameterOverrides", disturbanceOverrides), ("NumEvaluations", numEvaluations),
          ("RandomSeed", randomSeed)])
  }

  /** `ScenarioOptions(reference)` with every other argument left at its default. */
  function DefaultScenarioOptions(reference: Value): Value
  {
    ScenarioOptionsData(reference, List([]), Dict([]), Dict([]), Int(1), Int(42))
  }

  const ScenarioOptionKeys: seq<string> := ["SystemIc", "SystemParameterOverrides", "Reference",
    "DisturbanceParameterOverrides", "NumEvaluations", "RandomSeed"]

  /** The data has exactly six distinct keys, whatever the arguments. */
  lemma ScenarioOptionsKeys(reference: Value, ic: Value, so: Value, dso: Value, n: Value, seed: Value)
    ensures var d := ScenarioOptionsData(reference, ic, so, dso, n, seed);
      Keys(d.entries) == ScenarioOptionKeys && DistinctKeys(d.entries)
  {
    var e := ScenarioOptionsData(reference, ic, so, dso, n, seed).entries;
    assert Keys(e) == ScenarioOptionKeys;
    forall i, j | 0 <= i < j < |e| ensures e[i].0 != e[j].0 {
      assert e[i].0 == ScenarioOptionKeys[i] && e[j].0 == ScenarioOptionKeys[j];
      assert ScenarioOptionKeys[i][..1] != ScenarioOptionKeys[j][..1] || ScenarioOptionKeys[i] != ScenarioOptionKeys[j];
    }
  }

  /** The defaults are an empty initial condition, one evaluation and seed 42, and the
      reference is the one given. */
  lemma ScenarioOptionsDefaults(reference: Value)
    ensures var d := DefaultScenarioOptions(reference);
      GetItem(d, "NumEvaluations") == Ok(Int(1)) && GetItem(d, "RandomSeed") == Ok(Int(42)) &&
      GetItem(d, "Reference") == Ok(reference) && GetItem(d, "SystemIc") == Ok(List([]))
  {
    var e := DefaultScenarioOptions(reference).entries;
    var e2 := e[1..][1..];
    var e4 := e2[1..][1..];
    assert e2[0] == ("Reference", reference);
    assert e4[0] == ("NumEvaluations", Int(1)) && e4[1..][0] == ("RandomSeed", Int(42));
    assert Lookup(e, "Reference") == Lookup(e2, "Reference");
    assert Lookup(e, "NumEvaluations") == Lookup(e2, "NumEvaluations");
    assert Lookup(e2, "NumEvaluations") == Lookup(e4, "NumEvaluations");
    assert Lookup(e, "RandomSeed") == Lookup(e2, "RandomSeed");
    assert Lookup(e2, "RandomSeed") == Lookup(e4, "RandomSeed");
    assert Lookup(e4, "RandomSeed") == Lookup(e4[1..], "RandomSeed");
  }

  const MatEvalPrefix := "csb_m_eval_exp:"
  const MatFileEvalPrefix := "csb_m_eval_file:"
  const LoadFromFilePrefix := "csb_load_from_file:"

  /** `MatEval(expr).as_string()`. */
  function MatEvalString(expr: string): string
  {
    MatEvalPrefix + expr
  }

  /** `MatFileEval(path).as_string()`. */
  function MatFileEvalString(path: string): string
  {
    MatFileEvalPrefix + path
  }

  /** The rendering of `LoadFromFile(path, var)`: the variable is added, after a colon,
      only when it is truthy. */
  function LoadFromFileString(path: string, varName: Value, repr: Value -> string): string
  {
    if Truthy(varName) then LoadFromFilePrefix + path + ":" + StrOf(varName, repr)
    else LoadFromFilePrefix + path
  }

  /** `LoadFromFile(file_path, var_name)`. */
  datatype LoadFromFile = LoadFromFile(filePath: string, varName: Value)

  /** `LoadFromFile(...).as_string()`. */
  function LoadFromFileAsString(l: LoadFromFile, repr: Value -> string): string
  {
    LoadFromFileString(l.filePath, l.varName, repr)
  }

  /** `LoadFromFile.cls_as_string()` on a class namespace: the same rendering of the
      class attributes; either one missing raises `ValueError`. */
  function ClsAsString(cls: Namespace, repr: Value -> string): (r: Result<string>)
    ensures r.Err? <==> "file_path" !in cls || "var_name" !in cls
    ensures r.Err? ==> r.error == ValueError("Class does not have 'file_path' or 'var_name' attributes")
  {
    if "file_path" !in cls || "var_name" !in cls then
      Err(ValueError("Class does not have 'file_path' or 'var_name' attributes"))
    else if Truthy(cls["var_name"]) then
      Ok(LoadFromFilePrefix + StrOf(cls["file_path"], repr) + ":" + StrOf(cls["var_name"], repr))
    else Ok(LoadFromFilePrefix + StrOf(cls["file_path"], repr))
  }

  /** The `@load_from_file(file_path, var_name)` decorator: the flag, both attributes
      and an `as_string` function are attached to the class; nothing else changes. */
  function DecorateLoadFromFile(cls: Namespace, filePath: string, varName: Value): (r: Namespace)
    ensures r.Keys == cls.Keys + {"load_from_file__", "file_path", "var_name", "as_string"}
    ensures r["load_from_file__"] == Bool(true) && r["file_path"] == Str(filePath) && r["var_name"] == varName
    ensures forall a :: a in cls && a !in {"load_from_file__", "file_path", "var_name", "as_string"} ==> r[a] == cls[a]
  {
    cls["load_from_file__" := Bool(true)]["file_path" := Str(filePath)]["var_name" := varName]["as_string" := Func("<lambda>")]
  }

  /** The attached `as_string` reads the class attributes when it is called, not when
      the class is decorated. */
  function DecoratedAsString(cls: Namespace, repr: Value -> string): (r: Result<string>)
    ensures "var_name" !in cls ==> r == Err(AttributeError("var_name"))
    ensures "var_name" in cls && "file_path" !in cls ==> r == Err(AttributeError("file_path"))
  {
    var v :- GetAttr(cls, "var_name");
    var path :- GetAttr(cls, "file_path");
    if Truthy(v) then Ok(LoadFromFilePrefix + StrOf(path, repr) + ":" + StrOf(v, repr))
    else Ok(LoadFromFilePrefix + StrOf(path, repr))
  }

  /** A decorated class encodes exactly as `LoadFromFile(file_path, var_name)` does,
      through both `cls_as_string` and its own `as_string`. */
  lemma DecoratedEncodes(cls: Namespace, filePath: string, varName: Value, repr: Value -> string)
    ensures var d := DecorateLoadFromFile(cls, filePath, varName);
      ClsAsString(d, repr) == Ok(LoadFromFileAsString(LoadFromFile(filePath, varName), repr)) &&
      DecoratedAsString(d, repr) == ClsAsString(d, repr)
  {
  }

  /** Late binding: reassigning `file_path` after decoration changes what `as_string`
      returns. */
  lemma DecoratedAsStringLate(cls: Namespace, filePath: string, varName: Value, newPath: string, repr: Value -> string)
    ensures var d := DecorateLoadFromFile(cls, filePath, varName)["file_path" := Str(newPath)];
      DecoratedAsString(d, repr) == Ok(LoadFromFileAsString(LoadFromFile(newPath, varName), repr))
  {
  }

  /** The `@matlab_function(name, **kwargs)` decorator on a function's attributes. */
  function DecorateMatlabFunction(f: Namespace, name: string, kwargs: Entries): (r: Namespace)
    ensures r.Keys == f.Keys + {"external_function__", "external_backend__", "external_kwargs__"}
    ensures r["external_function__"] == Str(name) && r["external_backend__"] == Str("m") && r["external_kwargs__"] == Dict(kwargs)
    ensures forall a :: a in f && a !in {"external_function__", "external_backend__", "external_kwargs__"} ==> r[a] == f[a]
  {
    f["external_function__" := Str(name)]["external_backend__" := Str("m")]["external_kwargs__" := Dict(kwargs)]
  }

  /** The three prefixes tell the encodings apart: no MATLAB expression encodes as a
      MATLAB file, and neither encodes as a file load. */
  lemma EncodingsDisjoint(expr: string, path: string, l: LoadFromFile, repr: Value -> string)
    ensures MatEvalString(expr) != MatFileEvalString(path)
    ensures MatEvalString(expr) != LoadFromFileAsString(l, repr)
    ensures MatFileEvalString(path) != LoadFromFileAsString(l, repr)
  {
    assert MatEvalString(expr)[..5] == "csb_m";
    assert MatFileEvalString(path)[..5] == "csb_m";
    assert LoadFromFileAsString(l, repr)[..5] == "csb_l";
    assert MatEvalString(expr)[6..11] == "eval_";
    assert MatFileEvalString(path)[6..11] == "eval_";
    assert MatEvalString(expr)[11] == 'e' && MatFileEvalString(path)[11] == 'f';
  }

  /** Each MATLAB encoding gives back its argument after the prefix. */
  lemma MatEncodingsDecode(expr: string, path: string)
    ensures StartsWith(MatEvalString(expr), MatEvalPrefix) && MatEvalString(expr)[|MatEvalPrefix|..] == expr
    ensures StartsWith(MatFileEvalString(path), MatFileEvalPrefix) && MatFileEvalString(path)[|MatFileEvalPrefix|..] == path
  {
  }

  /** The file-load encoding is ambiguous when the path holds a colon: the path `a:b`
      without a variable encodes as the path `a` with the variable `b`. */
  lemma LoadFromFileAmbiguous(repr: Value -> string)
    ensures LoadFromFileAsString(LoadFromFile("a:b", Null), repr) == LoadFromFileAsString(LoadFromFile("a", Str("b")), repr)
  {
  }
}

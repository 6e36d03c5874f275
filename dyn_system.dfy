/** The `DynSystem` plugin base class (`DynSystem.py`): construction, `configure` and
    `step`. The class methods a concrete system overrides (`create_data_model`,
    `get_dims_from_params`) are functions given as parameters, and the hooks
    (`on_configure`, `on_step`) are given by what they return or raise. */
module DynSystemPlugin {
  import opened Wrappers
  import opened Values
  import opened PluginBase

  /** The base class's `create_data_model(params)`. */
  const DefaultDataModel: Value -> Value := (params: Value) => Null

  /** The base class's `get_dims_from_params(params)`, which raises. */
  const DefaultGetDims: Value -> Result<Value> := (params: Value) => Err(NotImplementedError(""))

  /** The attributes the constructor sets before `initialize(**kwargs)` runs. */
  function BuiltAttrs(parsed: map<string, Value>, createDataModel: Value -> Value): (r: Namespace)
    ensures r.Keys == {"_is_configured", "params", "is_simulink", "data", "last_el"}
  {
    var params := MapOr(parsed, "Params", Dict([]));
    var data := MapOr(parsed, "Data", Null);
    map["_is_configured" := Bool(false), "params" := params, "is_simulink" := MapOr(parsed, "is_simulink", Bool(false)),
        "data" := (if data == Null then createDataModel(params) else data), "last_el" := Null]
  }

  /** A new system is unconfigured with no last output; without a `'Data'` argument
      its data is what `create_data_model(params)` returns. */
  lemma ConstructedDefaults(args: seq<Value>, createDataModel: Value -> Value)
    requires forall j :: 0 <= j < |args| ==> args[j] != Str("Params") && args[j] != Str("Data")
    ensures var a := BuiltAttrs(Parsed(args), createDataModel);
      a["_is_configured"] == Bool(false) && a["last_el"] == Null &&
      a["params"] == Dict([]) && a["data"] == createDataModel(Dict([]))
  {
    ParsedMeaning(args);
    assert "Params" !in Parsed(args) && "Data" !in Parsed(args);
  }

  /** The initial condition `configure(ic)` settles on, or what it raises, given what
      `get_dims_from_params` does. */
  function InitialCondition(attrs: Namespace, ic: Value, getDims: Value -> Result<Value>): (r: Result<Value>)
    ensures "params" !in attrs ==> r == Err(AttributeError("params"))
    ensures "params" in attrs && getDims(attrs["params"]).Err? ==> r == Err(getDims(attrs["params"]).error)
    ensures "params" in attrs && getDims(attrs["params"]).Ok? && ic != Null ==>
      (r.Ok? <==> CheckOutputs(ic, getDims(attrs["params"]).value) == Pass) && (r.Ok? ==> r.value == ic)
    ensures "params" in attrs && getDims(attrs["params"]).Ok? && ic == Null ==> r == ZerosFor(getDims(attrs["params"]).value)
  {
    var params :- GetAttr(attrs, "params");
    var dims :- getDims(params);
    if ic != Null then
      match CheckOutputs(ic, dims)
      case Fail(e) => Err(e)
      case Pass => Ok(ic)
    else ZerosFor(dims)
  }

  /** A system whose class does not override `get_dims_from_params` cannot be
      configured. */
  lemma DefaultDimsFail(attrs: Namespace, ic: Value)
    requires "params" in attrs
    ensures InitialCondition(attrs, ic, DefaultGetDims) == Err(NotImplementedError(""))
  {
  }

  /** The initial condition has as many elements as the dimensions' `Outputs`, whether
      it was given or made. */
  lemma InitialConditionMatchesDims(attrs: Namespace, ic: Value, getDims: Value -> Result<Value>, n: nat)
    requires "params" in attrs && getDims(attrs["params"]).Ok?
    requires GetItem(getDims(attrs["params"]).value, "Outputs") == Ok(Int(n))
    requires InitialCondition(attrs, ic, getDims).Ok?
    ensures Len(InitialCondition(attrs, ic, getDims).value) == Ok(n)
  {
    InitialConditionLength(ic, getDims(attrs["params"]).value, n);
  }

  class DynSystem {
    /** The instance's attributes. */
    const inst: Instance

    /** `DynSystem(*args, **kwargs)`. */
    constructor(args: seq<Value>, kwargs: Entries, createDataModel: Value -> Value)
      ensures fresh(inst)
      ensures inst.attrs == Overlay(BuiltAttrs(Parsed(args), createDataModel), kwargs)
    {
      inst := new Instance();
      new;
      var parsed := ParsePositionalArgs(args);
      var params := MapOr(parsed, "Params", Dict([]));
      var data := MapOr(parsed, "Data", Null);
      if data == Null {
        data := createDataModel(params);
      }
      inst.attrs := map["_is_configured" := Bool(false), "params" := params,
                        "is_simulink" := MapOr(parsed, "is_simulink", Bool(false)), "data" := data,
                        "last_el" := Null];
      inst.Initialize(kwargs);
    }

    /** `configure(ic)`: the system is marked configured before anything is checked, so
        it stays marked when the dimensions or the length check fail; on success the
        initial condition is stored and becomes the last output. */
    method Configure(ic: Value, getDims: Value -> Result<Value>, onConfigure: Result<Value>) returns (r: Result<Value>)
      modifies inst
      ensures var marked := old(inst.attrs)["_is_configured" := Bool(true)];
        InitialCondition(old(inst.attrs), ic, getDims).Err? ==>
          r == Err(InitialCondition(old(inst.attrs), ic, getDims).error) && inst.attrs == marked
      ensures var marked := old(inst.attrs)["_is_configured" := Bool(true)];
        InitialCondition(old(inst.attrs), ic, getDims).Ok? ==>
          var x := InitialCondition(old(inst.attrs), ic, getDims).value;
          r == onConfigure && inst.attrs == marked["_ic" := x]["last_el" := x]
    {
      inst.attrs := inst.attrs["_is_configured" := Bool(true)];
      var params := GetAttr(inst.attrs, "params");
      if params.Err? {
        return Err(params.error);
      }
      var dims := getDims(params.value);
      if dims.Err? {
        return Err(dims.error);
      }
      var x: Value;
      if ic != Null {
        var c := CheckOutputs(ic, dims.value);
        if c.Fail? {
          return Err(c.error);
        }
        x := ic;
      } else {
        var z := ZerosFor(dims.value);
        if z.Err? {
          return Err(z.error);
        }
        x := z.value;
      }
      inst.attrs := inst.attrs["_ic" := x];
      inst.attrs := inst.attrs["last_el" := x];
      r := onConfigure;
    }

    /** `step(u, t, dt)`: `on_step`'s result becomes the last output and is returned. */
    method Step(onStep: Result<Value>) returns (r: Result<Value>)
      modifies inst
      ensures r == onStep
      ensures onStep.Ok? ==> inst.attrs == old(inst.attrs)["last_el" := onStep.value]
      ensures onStep.Err? ==> inst.attrs == old(inst.attrs)
    {
      r := onStep;
      if onStep.Ok? {
        inst.attrs := inst.attrs["last_el" := onStep.value];
      }
    }
  }
}

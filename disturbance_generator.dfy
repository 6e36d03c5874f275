/** The `DisturbanceGenerator` plugin base class (`DisturbanceGenerator.py`):
    construction, `configure` and `step`. `create_data_model` is a function given as a
    parameter, and the hooks (`on_configure`, `on_step`) are given by what they return
    or raise. */
module DisturbancePlugin {
  import opened Wrappers
  import opened Values
  import opened PluginBase

  /** The attributes the constructor sets before `initialize(**kwargs)` runs. */
  function BuiltAttrs(parsed: map<string, Value>, createDataModel: Value -> Value): (r: Namespace)
    ensures r.Keys == {"_is_configured", "params", "system_dims", "is_simulink", "data", "last_el"}
  {
    var params := MapOr(parsed, "Params", Dict([]));
    var data := MapOr(parsed, "Data", Null);
    map["_is_configured" := Bool(false), "params" := params, "system_dims" := MapOr(parsed, "SystemDims", Dict([])),
        "is_simulink" := MapOr(parsed, "is_simulink", Bool(false)),
        "data" := (if data == Null then createDataModel(params) else data), "last_el" := Null]
  }

  /** Without a `'SystemDims'` argument the system dimensions are `{}`. */
  lemma ConstructedDefaults(args: seq<Value>, createDataModel: Value -> Value)
    requires forall j :: 0 <= j < |args| ==> args[j] != Str("SystemDims")
    ensures var a := BuiltAttrs(Parsed(args), createDataModel);
      a["system_dims"] == Dict([]) && a["_is_configured"] == Bool(false) && a["last_el"] == Null
  {
    ParsedMeaning(args);
    assert "SystemDims" !in Parsed(args);
  }

  const NoDimsMessage := "System dimensions must be provided to set initial conditions."

  /** The initial condition `configure(ic)` settles on, or what it raises: a given one is
      length-checked only against non-empty dimensions, and none can be made without
      them. */
  function InitialCondition(attrs: Namespace, ic: Value): (r: Result<Value>)
    ensures "system_dims" !in attrs ==> r == Err(AttributeError("system_dims"))
    ensures "system_dims" in attrs && ic != Null && !Truthy(attrs["system_dims"]) ==> r == Ok(ic)
    ensures "system_dims" in attrs && ic != Null && Truthy(attrs["system_dims"]) ==>
      (r.Ok? <==> CheckOutputs(ic, attrs["system_dims"]) == Pass) && (r.Ok? ==> r.value == ic)
    ensures "system_dims" in attrs && ic == Null && Truthy(attrs["system_dims"]) ==> r == ZerosFor(attrs["system_dims"])
    ensures "system_dims" in attrs && ic == Null && !Truthy(attrs["system_dims"]) ==> r == Err(ValueError(NoDimsMessage))
  {
    var dims :- GetAttr(attrs, "system_dims");
    if ic != Null then
      if Truthy(dims) then
        match CheckOutputs(ic, dims)
        case Fail(e) => Err(e)
        case Pass => Ok(ic)
      else Ok(ic)
    else if Truthy(dims) then ZerosFor(dims)
    else Err(ValueError(NoDimsMessage))
  }

  /** With the default `{}` dimensions any given initial condition is accepted as is,
      and none is made. */
  lemma EmptyDims(attrs: Namespace, ic: Value)
    requires "system_dims" in attrs && attrs["system_dims"] == Dict([])
    ensures ic != Null ==> InitialCondition(attrs, ic) == Ok(ic)
    ensures ic == Null ==> InitialCondition(attrs, ic) == Err(ValueError(NoDimsMessage))
  {
  }

  class DisturbanceGenerator {
    /** The instance's attributes. */
    const inst: Instance

    /** `DisturbanceGenerator(*args, **kwargs)`. */
    constructor(args: seq<Value>, kwargs: Entries, createDataModel: Value -> Value)
      ensures fresh(inst)
      ensures inst.attrs == Overlay(BuiltAttrs(Parsed(args), createDataModel), kwargs)
    {
      inst := new Instance();
      new;
      var parsed := ParsePositionalArgs(args);
      var params := MapOr(parsed, "Params", Dict([]));
      var data := MapOr(parsed, "Data", Null);
      if data == Null {
        data := createDataModel(params);
      }
      inst.attrs := map["_is_configured" := Bool(false), "params" := params,
                        "system_dims" := MapOr(parsed, "SystemDims", Dict([])),
                        "is_simulink" := MapOr(parsed, "is_simulink", Bool(false)), "data" := data,
                        "last_el" := Null];
      inst.Initialize(kwargs);
    }

    /** `configure(ic)`: marked configured first, so it stays marked when a check
        fails; on success the initial condition is stored and becomes the last output. */
    method Configure(ic: Value, onConfigure: Result<Value>) returns (r: Result<Value>)
      modifies inst
      ensures var marked := old(inst.attrs)["_is_configured" := Bool(true)];
        InitialCondition(old(inst.attrs), ic).Err? ==>
          r == Err(InitialCondition(old(inst.attrs), ic).error) && inst.attrs == marked
      ensures var marked := old(inst.attrs)["_is_configured" := Bool(true)];
        InitialCondition(old(inst.attrs), ic).Ok? ==>
          var x := InitialCondition(old(inst.attrs), ic).value;
          r == onConfigure && inst.attrs == marked["_ic" := x]["last_el" := x]
    {
      inst.attrs := inst.attrs["_is_configured" := Bool(true)];
      var dims := GetAttr(inst.attrs, "system_dims");
      if dims.Err? {
        return Err(dims.error);
      }
      var x: Value;
      if ic != Null {
        if Truthy(dims.value) {
          var c := CheckOutputs(ic, dims.value);
          if c.Fail? {
            return Err(c.error);
          }
        }
        x := ic;
      } else {
        if !Truthy(dims.value) {
          return Err(ValueError(NoDimsMessage));
        }
        var z := ZerosFor(dims.value);
        if z.Err? {
          return Err(z.error);
        }
        x := z.value;
      }
      inst.attrs := inst.attrs["_ic" := x];
      inst.attrs := inst.attrs["last_el" := x];
      r := onConfigure;
    }

    /** `step(u, dt)`: `on_step`'s result becomes the last output and is returned. */
    method Step(onStep: Result<Value>) returns (r: Result<Value>)
      modifies inst
      ensures r == onStep
      ensures onStep.Ok? ==> inst.attrs == old(inst.attrs)["last_el" := onStep.value]
      ensures onStep.Err? ==> inst.attrs == old(inst.attrs)
    {
      r := onStep;
      if onStep.Ok? {
        inst.attrs := inst.attrs["last_el" := onStep.value];
      }
    }
  }
}

/** The `Controller` plugin base class (`Controller.py`): construction from positional
    and keyword arguments, `configure`, `step` and `reset`. The hooks a concrete
    controller overrides (`create_data_model`, `on_configure`, `on_step`, `on_reset`)
    are parameters: the data-model factory as a function, the others by what they
    return or raise. */
module ControllerPlugin {
  import opened Wrappers
  import opened Values
  import opened PluginBase

  /** The base class's `create_data_model(params, mux)`. */
  const DefaultDataModel: (Value, Value) -> Value := (params: Value, mux: Value) => Null

  /** The attributes the constructor sets before `initialize(**kwargs)` runs. */
  function BuiltAttrs(parsed: map<string, Value>, createDataModel: (Value, Value) -> Value): (r: Namespace)
    ensures r.Keys == {"_is_configured", "params", "is_simulink", "data", "mux", "last_el"}
  {
    var params := MapOr(parsed, "Params", Dict([]));
    var data := MapOr(parsed, "Data", Null);
    var mux := MapOr(parsed, "Mux", Null);
    map["_is_configured" := Bool(false), "params" := params, "is_simulink" := MapOr(parsed, "is_simulink", Bool(false)),
        "data" := (if data == Null then createDataModel(params, mux) else data), "mux" := mux, "last_el" := Null]
  }

  /** A new controller is not configured and has no last output; without the named
      arguments its parameters are `{}`, it has no mux and its data is what the factory
      makes of them, which for the base class is `None`. */
  lemma ConstructedDefaults(args: seq<Value>, createDataModel: (Value, Value) -> Value)
    requires forall j :: 0 <= j < |args| ==> args[j] != Str("Params") && args[j] != Str("Mux") && args[j] != Str("Data")
    ensures var a := BuiltAttrs(Parsed(args), createDataModel);
      a["_is_configured"] == Bool(false) && a["last_el"] == Null &&
      a["params"] == Dict([]) && a["mux"] == Null && a["data"] == createDataModel(Dict([]), Null)
    ensures BuiltAttrs(Parsed(args), DefaultDataModel)["data"] == Null
  {
    ParsedMeaning(args);
    assert "Params" !in Parsed(args) && "Mux" !in Parsed(args) && "Data" !in Parsed(args);
  }

  /** The mux comes from the `'Mux'` argument, and a given `'Data'` is kept. */
  lemma ConstructedFromArgs(mux: Value, data: Value, createDataModel: (Value, Value) -> Value)
    requires data != Null
    ensures var a := BuiltAttrs(Parsed([Str("Mux"), mux, Str("Data"), data]), createDataModel);
      a["mux"] == mux && a["data"] == data
  {
    var args := [Str("Mux"), mux, Str("Data"), data];
    assert Pairs(args, 1) == map["Mux" := mux];
    assert Parsed(args) == map["Mux" := mux, "Data" := data];
  }

  /** The initial condition `configure(ic)` settles on, or what it raises. */
  function InitialCondition(attrs: Namespace, ic: Value): (r: Result<Value>)
    ensures "mux" !in attrs ==> r == Err(AttributeError("mux"))
    ensures "mux" in attrs && ic != Null && attrs["mux"] == Null ==> r == Ok(ic)
    ensures "mux" in attrs && ic != Null && attrs["mux"] != Null ==>
      (r.Ok? <==> CheckOutputs(ic, attrs["mux"]) == Pass) && (r.Ok? ==> r.value == ic)
    ensures "mux" in attrs && ic == Null && attrs["mux"] == Null ==> r == Ok(NdArray([Float(0.0)]))
    ensures "mux" in attrs && ic == Null && attrs["mux"] != Null ==> r == ZerosFor(attrs["mux"])
  {
    var mux :- GetAttr(attrs, "mux");
    if ic != Null then
      if mux != Null then
        match CheckOutputs(ic, mux)
        case Fail(e) => Err(e)
        case Pass => Ok(ic)
      else Ok(ic)
    else if mux != Null then ZerosFor(mux)
    else
      assert seq(1, _ => Float(0.0)) == [Float(0.0)];
      Zeros(Int(1))
  }

  /** With a mux whose `Outputs` is `n`, the initial condition has `n` elements whether
      it was given or made. */
  lemma InitialConditionMatchesMux(attrs: Namespace, ic: Value, n: nat)
    requires "mux" in attrs && GetItem(attrs["mux"], "Outputs") == Ok(Int(n))
    requires InitialCondition(attrs, ic).Ok?
    ensures Len(InitialCondition(attrs, ic).value) == Ok(n)
  {
    InitialConditionLength(ic, attrs["mux"], n);
  }

  class Controller {
    /** The instance's attributes. */
    const inst: Instance

    /** `Controller(*args, **kwargs)`. */
    constructor(args: seq<Value>, kwargs: Entries, createDataModel: (Value, Value) -> Value)
      ensures fresh(inst)
      ensures inst.attrs == Overlay(BuiltAttrs(Parsed(args), createDataModel), kwargs)
    {
      inst := new Instance();
      new;
      var parsed := ParsePositionalArgs(args);
      var params := MapOr(parsed, "Params", Dict([]));
      var data := MapOr(parsed, "Data", Null);
      var mux := MapOr(parsed, "Mux", Null);
      if data == Null {
        data := createDataModel(params, mux);
      }
      inst.attrs := map["_is_configured" := Bool(false), "params" := params,
                        "is_simulink" := MapOr(parsed, "is_simulink", Bool(false)), "data" := data,
                        "mux" := mux, "last_el" := Null];
      inst.Initialize(kwargs);
    }

    /** `configure(ic)`: on success the initial condition is stored and becomes the last
        output, the controller is configured and `on_configure()`'s result is returned;
        a failed check changes nothing. */
    method Configure(ic: Value, onConfigure: Result<Value>) returns (r: Result<Value>)
      modifies inst
      ensures InitialCondition(old(inst.attrs), ic).Err? ==>
        r == Err(InitialCondition(old(inst.attrs), ic).error) && inst.attrs == old(inst.attrs)
      ensures InitialCondition(old(inst.attrs), ic).Ok? ==>
        var x := InitialCondition(old(inst.attrs), ic).value;
        r == onConfigure && inst.attrs == old(inst.attrs)["_ic" := x]["last_el" := x]["_is_configured" := Bool(true)]
    {
      if "mux" !in inst.attrs {
        return Err(AttributeError("mux"));
      }
      var mux := inst.attrs["mux"];
      var x: Value;
      if ic != Null {
        if mux != Null {
          var c := CheckOutputs(ic, mux);
          if c.Fail? {
            return Err(c.error);
          }
        }
        x := ic;
      } else {
        var z := if mux != Null then ZerosFor(mux) else Zeros(Int(1));
        if z.Err? {
          return Err(z.error);
        }
        x := z.value;
      }
      inst.attrs := inst.attrs["_ic" := x];
      inst.attrs := inst.attrs["last_el" := x];
      inst.attrs := inst.attrs["_is_configured" := Bool(true)];
      r := onConfigure;
    }

    /** `step(y_ref, y, dt)`: `on_step`'s result becomes the last output and is
        returned; a raising hook changes nothing. */
    method Step(onStep: Result<Value>) returns (r: Result<Value>)
      modifies inst
      ensures r == onStep
      ensures onStep.Ok? ==> inst.attrs == old(inst.attrs)["last_el" := onStep.value]
      ensures onStep.Err? ==> inst.attrs == old(inst.attrs)
    {
      r := onStep;
      if onStep.Ok? {
        inst.attrs := inst.attrs["last_el" := onStep.value];
      }
    }

    /** `reset()`: `on_reset()`'s result; the base class itself changes nothing. */
    method Reset(onReset: Result<Value>) returns (r: Result<Value>)
      ensures r == onReset
    {
      r := onReset;
    }
  }
}

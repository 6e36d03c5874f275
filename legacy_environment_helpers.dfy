/** The older revision of the environment helpers (`backend/environment_helpers.py`):
    its `generate_control_environment` selects the system and controllers like the
    newer loader, but reads `controller_ids` as JSON, selects no controller when none
    are given, does not record `env_path`, and discards what it computes. */
module LegacyEnvironmentHelpers {
  import opened Wrappers
  import opened Values
  import opened FileSystem
  import EH = EnvironmentHelpers
  import EP = EvalParameters

  /** The filter: `[]` when `controller_ids` is `None` or `''`, else `json.loads` of it,
      which refuses anything but a string. */
  function LegacyIds(codec: JsonCodec, ci: Value): (r: Result<Value>)
    ensures EH.NoIds(ci) ==> r == Ok(List([]))
    ensures !EH.NoIds(ci) && ci.Str? ==> r == codec.load(ci.s)
    ensures !EH.NoIds(ci) && !ci.Str? ==> r.Err? && r.error.TypeError?
  {
    if EH.NoIds(ci) then Ok(List([]))
    else if ci.Str? then codec.load(ci.s)
    else Err(TypeError("the JSON object must be str, bytes or bytearray"))
  }

  /** The loaded namespace after the selection, and whether the warning is issued. */
  function LegacyFilter(data: Namespace, codec: JsonCodec, si: Option<string>, ci: Value): (r: Result<(Namespace, bool)>)
    ensures r.Ok? ==> r.value.0.Keys == data.Keys
    ensures r.Ok? ==>
      "systems" in data && EH.SelectSystems(data["systems"], si).Ok? &&
      r.value.0["systems"] == EH.SelectSystems(data["systems"], si).value
    ensures r.Ok? ==>
      "controllers" in data && Iterate(data["controllers"]).Ok? && LegacyIds(codec, ci).Ok? &&
      EH.SelectListed(Iterate(data["controllers"]).value, LegacyIds(codec, ci).value).Ok? &&
      r.value.0["controllers"] == List(EH.SelectListed(Iterate(data["controllers"]).value, LegacyIds(codec, ci).value).value.0) &&
      r.value.1 == EH.SelectListed(Iterate(data["controllers"]).value, LegacyIds(codec, ci).value).value.1
    ensures r.Ok? ==> "metadata" in r.value.0 && EH.CheckTs(r.value.0["metadata"]) == Pass
    ensures "systems" in data && EH.SelectSystems(data["systems"], si).Ok? && LegacyIds(codec, ci).Err? ==>
      r == Err(LegacyIds(codec, ci).error)
  {
    var systems :- GetAttr(data, "systems");
    var sel :- EH.SelectSystems(systems, si);
    var d1 := data["systems" := sel];
    var ids :- LegacyIds(codec, ci);
    var controllers :- GetAttr(d1, "controllers");
    var items :- Iterate(controllers);
    var c :- EH.SelectListed(items, ids);
    var d2 := d1["controllers" := List(c.0)];
    var md :- GetAttr(d2, "metadata");
    match EH.CheckTs(md)
    case Fail(e) => Err(e)
    case Pass => Ok((d2, c.1))
  }

  /** `data.metadata.get("Name", "GeneratedEnvironment")`. */
  function LegacyName(metadata: Value): (r: Result<Value>)
    ensures r.Ok? <==> metadata.Dict?
    ensures metadata.Dict? && !HasKey(metadata.entries, "Name") ==> r == Ok(Str("GeneratedEnvironment"))
  {
    GetOr(metadata, "Name", Str("GeneratedEnvironment"))
  }

  /** `generate_control_environment(env_path, system_instance, controller_ids)`:
      nothing is returned, so only whether it raises is observable; `loaded` is what
      loading the environment gave. */
  function GenerateControlEnvironment(ctx: EP.Ctx, b: EP.Backend, codec: JsonCodec, loaded: Result<Namespace>,
                                      envPath: string, si: Option<string>, ci: Value): (r: Outcome)
    ensures loaded.Err? ==> r == Fail(loaded.error)
    ensures loaded.Ok? && LegacyFilter(loaded.value, codec, si, ci).Err? ==>
      r == Fail(LegacyFilter(loaded.value, codec, si, ci).error)
    ensures r == Pass <==>
      (loaded.Ok? && LegacyFilter(loaded.value, codec, si, ci).Ok? &&
       EP.EvalEnvironmentParamsSpec(ctx, b, envPath, LegacyFilter(loaded.value, codec, si, ci).value.0).Ok?)
  {
    match loaded
    case Err(e) => Fail(e)
    case Ok(data) =>
      match LegacyFilter(data, codec, si, ci)
      case Err(e) => Fail(e)
      case Ok(f) =>
        var name := LegacyName(f.0["metadata"]);
        assert name.Ok?;
        match EP.EvalEnvironmentParamsSpec(ctx, b, envPath, f.0)
        case Err(e) => Fail(e)
        case Ok(_) => Pass
  }

  /** Without `controller_ids` no controller is selected and no warning is issued. */
  lemma NoIdsSelectsNothing(data: Namespace, codec: JsonCodec, si: Option<string>, ci: Value)
    requires EH.NoIds(ci) && LegacyFilter(data, codec, si, ci).Ok?
    ensures LegacyFilter(data, codec, si, ci).value.0["controllers"] == List([])
    ensures !LegacyFilter(data, codec, si, ci).value.1
  {
    KeepListedNone(Iterate(data["controllers"]).value);
  }

  /** An empty filter keeps no controller. */
  lemma {:induction false} KeepListedNone(items: seq<Value>)
    ensures EH.KeepListed(items, List([])).Ok? ==> EH.KeepListed(items, List([])) == Ok([])
    decreases |items|
  {
    if items != [] && EH.KeepListed(items, List([])).Ok? {
      assert items[0] in items && forall c :: c in items[1..] ==> c in items;
      KeepListedNone(items[1..]);
    }
  }

  /** A decoded list of ids keeps exactly the Python controllers whose `Id` is in it. */
  lemma DecodedIdsFilter(data: Namespace, codec: JsonCodec, si: Option<string>, text: string, ids: seq<Value>, c: Value)
    requires text != "" && codec.load(text) == Ok(List(ids))
    requires LegacyFilter(data, codec, si, Str(text)).Ok?
    ensures c in LegacyFilter(data, codec, si, Str(text)).value.0["controllers"].items <==>
      c in Iterate(data["controllers"]).value && GetItem(c, "Id").Ok? && GetItem(c, "Id").value in ids && EH.IsPython(c)
  {
  }

  /** The two revisions part ways on a missing `controller_ids`: for one Python
      controller the newer loader keeps it, the older generator keeps none. */
  lemma RevisionsDiffer(codec: JsonCodec, sys: Value, c: Value, md: Value)
    requires GetItem(c, "Id").Ok? && EH.IsPython(c)
    requires EH.CheckTs(md) == Pass
    ensures var data := map["systems" := List([sys]), "controllers" := List([c]), "metadata" := md];
      EH.FilterData(data, "env", None, Null) ==
        Ok((data["controllers" := List([c])]["env_path" := Str("env")], false)) &&
      LegacyFilter(data, codec, None, Null) == Ok((data["controllers" := List([])], false))
  {
    var data := map["systems" := List([sys]), "controllers" := List([c]), "metadata" := md];
    var id := GetItem(c, "Id").value;
    assert [c][1..] == [] && [c] + [] == [c];
    assert EH.Ids([]) == Ok([]) && [id] + [] == [id];
    assert EH.Ids([c]) == Ok([id]);
    assert EH.KeepListed([c], List([id])) == Ok([c]);
    assert EH.KeepPython([c]) == Ok([c]);
    assert EH.SelectControllers(List([c]), Null) == Ok(([c], false));
    assert EH.KeepListed([c], List([])) == Ok([]);
    assert EH.SelectListed([c], List([])) == Ok(([], false));
    assert data["systems" := List([sys])] == data;
  }
}

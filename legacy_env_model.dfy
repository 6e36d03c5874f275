/** The record defaults of the earlier environment layout. Each record class with an Id
    field holds it as a class constant drawn once when the module is imported, so every
    `as_dict` of that class, and of every class inheriting it, returns the same Id. */
module LegacyEnvModel {
  import opened Wrappers
  import opened Values
  import opened Dataclasses
  import EnvModel

  /** The four Ids drawn from the fresh-id oracle at import time: the one of
      `ComponentInfo`, and those of `ControllerComponent`, `Scenario` and `Metric`. */
  datatype ImportIds = ImportIds(info: string, controllerComponent: string, scenario: string, metric: string)

  function Empty(): Default { Plain(Str("")) }

  /** `field(default_factory=create_callbacks)`; this `create_callbacks` is the same
      function as the later layout's. */
  function CallbacksDefault(): Default { FromFactory(Make(EnvModel.CreateCallbacks())) }

  function EmptyDict(): Default { FromFactory(Make(Dict([]))) }

  function EmptyList(): Default { FromFactory(Make(List([]))) }

  const MetadataCls := Cls(None, [
    (Name, Plain(Str("New Environment"))), (Description, Empty()), (Author, Empty()),
    (Version, Plain(Str("0.0.1"))), (License, Empty()), (Tags, EmptyList()),
    (Created, Empty()), (Modified, Empty())])

  function ComponentInfoCls(ids: ImportIds): Cls
  {
    Cls(None, [
      (Id, Plain(Str(ids.info))), (Name, Empty()), (Description, Empty()),
      (ParamsFile, Empty()), (LibraryVersionHash, Empty()), (Library, Empty()),
      (LibraryVersion, Empty()), (PluginType, Empty()), (Callbacks, CallbacksDefault())])
  }

  /** `System` redeclares `Callbacks` exactly as its base declares it. */
  function SystemCls(ids: ImportIds): Cls
  {
    Cls(Some(ComponentInfoCls(ids)), [(Disturbance, EmptyDict()), (Estimator, EmptyDict()), (Callbacks, CallbacksDefault())])
  }

  function ControllerCls(ids: ImportIds): Cls
  {
    Cls(Some(ComponentInfoCls(ids)), [
      (IsComposable, Plain(Bool(false))), (RefHorizon, Plain(Int(0))), (Mux, EmptyDict()),
      (Components, EmptyList()), (Disturbance, EmptyDict()), (Estimator, EmptyDict())])
  }

  function ControllerComponentCls(ids: ImportIds): Cls
  {
    Cls(None, [
      (Id, Plain(Str(ids.controllerComponent))), (Name, Empty()), (Description, Empty()),
      (ParamsFile, Empty()), (LibraryVersionHash, Empty()), (Library, Empty()),
      (LibraryVersion, Empty()), (PluginType, Empty()), (Callbacks, CallbacksDefault()),
      (Mux, EmptyDict())])
  }

  function ScenarioCls(ids: ImportIds): Cls
  {
    Cls(None, [
      (Id, Plain(Str(ids.scenario))), (Name, Empty()), (Description, Empty()),
      (InitialCondition, Empty()), (Reference, Empty()), (ParamsFile, Empty()),
      (ConstHorizonReference, Plain(Bool(false)))])
  }

  function MetricCls(ids: ImportIds): Cls
  {
    Cls(None, [
      (Id, Plain(Str(ids.metric))), (Name, Empty()), (Description, Empty()),
      (ParamsFile, Empty()), (Callback, Empty())])
  }

  function DisturbanceCls(ids: ImportIds): Cls { Cls(Some(ComponentInfoCls(ids)), []) }

  function EstimatorCls(ids: ImportIds): Cls { Cls(Some(ComponentInfoCls(ids)), []) }

  /** The common fields of the component records, under the shared Id; `Callbacks` is a
      fresh dict with the four callback names mapped to empty text. */
  function InfoEntries(ids: ImportIds): Entries
  {
    [("Id", Str(ids.info)), ("Name", Str("")), ("Description", Str("")),
     ("ParamsFile", Str("")), ("LibraryVersionHash", Str("")), ("Library", Str("")),
     ("LibraryVersion", Str("")), ("PluginType", Str("")), ("Callbacks", EnvModel.CreateCallbacks())]
  }

  lemma InfoNames(ids: ImportIds)
    ensures NamesOf(ComponentInfoCls(ids).own) == [Id, Name, Description, ParamsFile, LibraryVersionHash, Library, LibraryVersion, PluginType, Callbacks]
  {
  }

  lemma InfoDistinct()
    ensures Distinct([Id, Name, Description, ParamsFile, LibraryVersionHash, Library, LibraryVersion, PluginType, Callbacks])
  {
  }

  lemma InfoFlat(ids: ImportIds, uuid: string)
    ensures Flat(ComponentInfoCls(ids).own, uuid) == InfoEntries(ids)
  {
  }

  lemma MetadataNames()
    ensures NamesOf(MetadataCls.own) == [Name, Description, Author, Version, License, Tags, Created, Modified]
  {
  }

  lemma MetadataDistinct()
    ensures Distinct([Name, Description, Author, Version, License, Tags, Created, Modified])
  {
  }

  lemma MetadataOwn(uuid: string)
    ensures Flat(MetadataCls.own, uuid) == [
      ("Name", Str("New Environment")), ("Description", Str("")), ("Author", Str("")),
      ("Version", Str("0.0.1")), ("License", Str("")), ("Tags", List([])),
      ("Created", Str("")), ("Modified", Str(""))]
  {
  }

  /** `Metadata.as_dict()`: the environment's name and version 0.0.1 as flat fields, with
      a fresh empty tag list. */
  lemma MetadataDefaults(uuid: string)
    ensures AsDict(MetadataCls, uuid) == Dict([
      ("Name", Str("New Environment")), ("Description", Str("")), ("Author", Str("")),
      ("Version", Str("0.0.1")), ("License", Str("")), ("Tags", List([])),
      ("Created", Str("")), ("Modified", Str(""))])
  {
    MetadataNames();
    MetadataDistinct();
    MetadataOwn(uuid);
    AsDictOfRoot(MetadataCls, [Name, Description, Author, Version, License, Tags, Created, Modified], uuid, [
      ("Name", Str("New Environment")), ("Description", Str("")), ("Author", Str("")),
      ("Version", Str("0.0.1")), ("License", Str("")), ("Tags", List([])),
      ("Created", Str("")), ("Modified", Str(""))]);
  }

  lemma ControllerNames(ids: ImportIds)
    ensures NamesOf(ComponentInfoCls(ids).own + ControllerCls(ids).own) == [Id, Name, Description, ParamsFile, LibraryVersionHash, Library, LibraryVersion, PluginType, Callbacks, IsComposable, RefHorizon, Mux, Components, Disturbance, Estimator]
  {
    NamesOfAppend(ComponentInfoCls(ids).own, ControllerCls(ids).own);
    InfoNames(ids);
  }

  lemma ControllerDistinct()
    ensures Distinct([Id, Name, Description, ParamsFile, LibraryVersionHash, Library, LibraryVersion, PluginType, Callbacks, IsComposable, RefHorizon, Mux, Components, Disturbance, Estimator])
  {
    var a := [Id, Name, Description, ParamsFile, LibraryVersionHash, Library, LibraryVersion, PluginType, Callbacks];
    var b := [IsComposable, RefHorizon, Mux, Components, Disturbance, Estimator];
    InfoDistinct();
    DistinctJoin(a, b);
    assert a + b == [Id, Name, Description, ParamsFile, LibraryVersionHash, Library, LibraryVersion, PluginType, Callbacks, IsComposable, RefHorizon, Mux, Components, Disturbance, Estimator];
  }

  lemma ControllerOwn(ids: ImportIds, uuid: string)
    ensures Flat(ControllerCls(ids).own, uuid) == [
      ("IsComposable", Bool(false)), ("RefHorizon", Int(0)), ("Mux", Dict([])),
      ("Components", List([])), ("Disturbance", Dict([])), ("Estimator", Dict([]))]
  {
  }

  /** `Controller.as_dict()`: the shared Id, not composable, a zero reference horizon,
      no components. */
  lemma ControllerDefaults(ids: ImportIds, uuid: string)
    ensures AsDict(ControllerCls(ids), uuid) == Dict(InfoEntries(ids) + [
      ("IsComposable", Bool(false)), ("RefHorizon", Int(0)), ("Mux", Dict([])),
      ("Components", List([])), ("Disturbance", Dict([])), ("Estimator", Dict([]))])
  {
    InfoFlat(ids, uuid);
    ControllerNames(ids);
    ControllerDistinct();
    ControllerOwn(ids, uuid);
    AsDictOfChild(ControllerCls(ids), [Id, Name, Description, ParamsFile, LibraryVersionHash, Library, LibraryVersion, PluginType, Callbacks, IsComposable, RefHorizon, Mux, Components, Disturbance, Estimator], uuid, InfoEntries(ids), [
      ("IsComposable", Bool(false)), ("RefHorizon", Int(0)), ("Mux", Dict([])),
      ("Components", List([])), ("Disturbance", Dict([])), ("Estimator", Dict([]))]);
  }

  lemma ControllerComponentNames(ids: ImportIds)
    ensures NamesOf(ControllerComponentCls(ids).own) == [Id, Name, Description, ParamsFile, LibraryVersionHash, Library, LibraryVersion, PluginType, Callbacks, Mux]
  {
  }

  lemma ControllerComponentDistinct()
    ensures Distinct([Id, Name, Description, ParamsFile, LibraryVersionHash, Library, LibraryVersion, PluginType, Callbacks, Mux])
  {
  }

  lemma ControllerComponentOwn(ids: ImportIds, uuid: string)
    ensures Flat(ControllerComponentCls(ids).own, uuid) == [
      ("Id", Str(ids.controllerComponent)), ("Name", Str("")), ("Description", Str("")),
      ("ParamsFile", Str("")), ("LibraryVersionHash", Str("")), ("Library", Str("")),
      ("LibraryVersion", Str("")), ("PluginType", Str("")), ("Callbacks", EnvModel.CreateCallbacks()),
      ("Mux", Dict([]))]
  {
  }

  /** `ControllerComponent.as_dict()`: its own class-constant Id. */
  lemma ControllerComponentDefaults(ids: ImportIds, uuid: string)
    ensures AsDict(ControllerComponentCls(ids), uuid) == Dict([
      ("Id", Str(ids.controllerComponent)), ("Name", Str("")), ("Description", Str("")),
      ("ParamsFile", Str("")), ("LibraryVersionHash", Str("")), ("Library", Str("")),
      ("LibraryVersion", Str("")), ("PluginType", Str("")), ("Callbacks", EnvModel.CreateCallbacks()),
      ("Mux", Dict([]))])
  {
    ControllerComponentNames(ids);
    ControllerComponentDistinct();
    ControllerComponentOwn(ids, uuid);
    AsDictOfRoot(ControllerComponentCls(ids), [Id, Name, Description, ParamsFile, LibraryVersionHash, Library, LibraryVersion, PluginType, Callbacks, Mux], uuid, [
      ("Id", Str(ids.controllerComponent)), ("Name", Str("")), ("Description", Str("")),
      ("ParamsFile", Str("")), ("LibraryVersionHash", Str("")), ("Library", Str("")),
      ("LibraryVersion", Str("")), ("PluginType", Str("")), ("Callbacks", EnvModel.CreateCallbacks()),
      ("Mux", Dict([]))]);
  }

  lemma ScenarioNames(ids: ImportIds)
    ensures NamesOf(ScenarioCls(ids).own) == [Id, Name, Description, InitialCondition, Reference, ParamsFile, ConstHorizonReference]
  {
  }

  lemma ScenarioDistinct()
    ensures Distinct([Id, Name, Description, InitialCondition, Reference, ParamsFile, ConstHorizonReference])
  {
  }

  lemma ScenarioOwn(ids: ImportIds, uuid: string)
    ensures Flat(ScenarioCls(ids).own, uuid) == [
      ("Id", Str(ids.scenario)), ("Name", Str("")), ("Description", Str("")),
      ("InitialCondition", Str("")), ("Reference", Str("")), ("ParamsFile", Str("")),
      ("ConstHorizonReference", Bool(false))]
  {
  }

  /** `Scenario.as_dict()`: its own class-constant Id. */
  lemma ScenarioDefaults(ids: ImportIds, uuid: string)
    ensures AsDict(ScenarioCls(ids), uuid) == Dict([
      ("Id", Str(ids.scenario)), ("Name", Str("")), ("Description", Str("")),
      ("InitialCondition", Str("")), ("Reference", Str("")), ("ParamsFile", Str("")),
      ("ConstHorizonReference", Bool(false))])
  {
    ScenarioNames(ids);
    ScenarioDistinct();
    ScenarioOwn(ids, uuid);
    AsDictOfRoot(ScenarioCls(ids), [Id, Name, Description, InitialCondition, Reference, ParamsFile, ConstHorizonReference], uuid, [
      ("Id", Str(ids.scenario)), ("Name", Str("")), ("Description", Str("")),
      ("InitialCondition", Str("")), ("Reference", Str("")), ("ParamsFile", Str("")),
      ("ConstHorizonReference", Bool(false))]);
  }

  lemma MetricNames(ids: ImportIds)
    ensures NamesOf(MetricCls(ids).own) == [Id, Name, Description, ParamsFile, Callback]
  {
  }

  lemma MetricDistinct()
    ensures Distinct([Id, Name, Description, ParamsFile, Callback])
  {
  }

  lemma MetricOwn(ids: ImportIds, uuid: string)
    ensures Flat(MetricCls(ids).own, uuid) == [
      ("Id", Str(ids.metric)), ("Name", Str("")), ("Description", Str("")),
      ("ParamsFile", Str("")), ("Callback", Str(""))]
  {
  }

  /** `Metric.as_dict()`: its own class-constant Id and a single callback name. */
  lemma MetricDefaults(ids: ImportIds, uuid: string)
    ensures AsDict(MetricCls(ids), uuid) == Dict([
      ("Id", Str(ids.metric)), ("Name", Str("")), ("Description", Str("")),
      ("ParamsFile", Str("")), ("Callback", Str(""))])
  {
    MetricNames(ids);
    MetricDistinct();
    MetricOwn(ids, uuid);
    AsDictOfRoot(MetricCls(ids), [Id, Name, Description, ParamsFile, Callback], uuid, [
      ("Id", Str(ids.metric)), ("Name", Str("")), ("Description", Str("")),
      ("ParamsFile", Str("")), ("Callback", Str(""))]);
  }

  lemma DisturbanceNames(ids: ImportIds)
    ensures NamesOf(ComponentInfoCls(ids).own + DisturbanceCls(ids).own) == [Id, Name, Description, ParamsFile, LibraryVersionHash, Library, LibraryVersion, PluginType, Callbacks]
  {
  }

  lemma DisturbanceOwn(ids: ImportIds, uuid: string)
    ensures Flat(DisturbanceCls(ids).own, uuid) == []
  {
  }

  /** `Disturbance.as_dict()`: exactly the common fields. */
  lemma DisturbanceDefaults(ids: ImportIds, uuid: string)
    ensures AsDict(DisturbanceCls(ids), uuid) == Dict(InfoEntries(ids))
  {
    InfoFlat(ids, uuid);
    DisturbanceNames(ids);
    InfoDistinct();
    DisturbanceOwn(ids, uuid);
    AsDictOfChild(DisturbanceCls(ids), [Id, Name, Description, ParamsFile, LibraryVersionHash, Library, LibraryVersion, PluginType, Callbacks], uuid, InfoEntries(ids), []);
    assert InfoEntries(ids) + [] == InfoEntries(ids);
  }

  lemma EstimatorNames(ids: ImportIds)
    ensures NamesOf(ComponentInfoCls(ids).own + EstimatorCls(ids).own) == [Id, Name, Description, ParamsFile, LibraryVersionHash, Library, LibraryVersion, PluginType, Callbacks]
  {
  }

  lemma EstimatorOwn(ids: ImportIds, uuid: string)
    ensures Flat(EstimatorCls(ids).own, uuid) == []
  {
  }

  /** `Estimator.as_dict()`: exactly the common fields. */
  lemma EstimatorDefaults(ids: ImportIds, uuid: string)
    ensures AsDict(EstimatorCls(ids), uuid) == Dict(InfoEntries(ids))
  {
    InfoFlat(ids, uuid);
    EstimatorNames(ids);
    InfoDistinct();
    EstimatorOwn(ids, uuid);
    AsDictOfChild(EstimatorCls(ids), [Id, Name, Description, ParamsFile, LibraryVersionHash, Library, LibraryVersion, PluginType, Callbacks], uuid, InfoEntries(ids), []);
    assert InfoEntries(ids) + [] == InfoEntries(ids);
  }

  function SystemExtra(): seq<Decl> { [(Disturbance, EmptyDict()), (Estimator, EmptyDict())] }

  lemma SystemNames(ids: ImportIds)
    ensures NamesOf(ComponentInfoCls(ids).own + SystemExtra()) == [Id, Name, Description, ParamsFile, LibraryVersionHash, Library, LibraryVersion, PluginType, Callbacks, Disturbance, Estimator]
  {
  }

  lemma SystemDistinct()
    ensures Distinct([Id, Name, Description, ParamsFile, LibraryVersionHash, Library, LibraryVersion, PluginType, Callbacks, Disturbance, Estimator])
  {
  }

  /** The redeclared `Callbacks` keeps its place among the inherited fields, and the
      system's own fields follow them. */
  lemma SystemFields(ids: ImportIds)
    ensures Fields(SystemCls(ids)) == ComponentInfoCls(ids).own + SystemExtra()
  {
    var b := ComponentInfoCls(ids).own;
    InfoFields(ids);
    SystemOwnShape(ids);
    assert Fields(SystemCls(ids)) == Merge(b, SystemExtra() + [b[8]]);
    SystemNames(ids);
    SystemDistinct();
    MergeRedeclareInherited(b, SystemExtra(), 8);
  }

  lemma InfoFields(ids: ImportIds)
    ensures Fields(ComponentInfoCls(ids)) == ComponentInfoCls(ids).own
  {
    InfoNames(ids);
    InfoDistinct();
    FieldsOfRoot(ComponentInfoCls(ids), NamesOf(ComponentInfoCls(ids).own));
  }

  lemma SystemOwnShape(ids: ImportIds)
    ensures SystemCls(ids).base == Some(ComponentInfoCls(ids))
    ensures SystemCls(ids).own == SystemExtra() + [ComponentInfoCls(ids).own[8]]
  {
  }

  /** `System.as_dict()`: the shared Id, a fresh callbacks dict, and empty disturbance
      and estimator. */
  lemma SystemDefaults(ids: ImportIds, uuid: string)
    ensures AsDict(SystemCls(ids), uuid) == Dict(InfoEntries(ids) + [("Disturbance", Dict([])), ("Estimator", Dict([]))])
  {
    SystemAsFlat(ids, uuid);
    SystemFlat(ids, uuid);
  }

  lemma SystemAsFlat(ids: ImportIds, uuid: string)
    ensures AsDict(SystemCls(ids), uuid) == Dict(Flat(ComponentInfoCls(ids).own + SystemExtra(), uuid))
  {
    SystemFields(ids);
    SystemNames(ids);
    SystemDistinct();
    AsDictOfFactoryChild(SystemCls(ids), SystemExtra(), uuid);
  }

  lemma SystemFlat(ids: ImportIds, uuid: string)
    ensures Flat(ComponentInfoCls(ids).own + SystemExtra(), uuid) == InfoEntries(ids) + [("Disturbance", Dict([])), ("Estimator", Dict([]))]
  {
    FlatAppend(ComponentInfoCls(ids).own, SystemExtra(), uuid);
    InfoFlat(ids, uuid);
  }

  lemma InfoIdFirst(ids: ImportIds, rest: Entries)
    ensures Lookup(InfoEntries(ids) + rest, "Id") == Some(Str(ids.info))
  {
    assert (InfoEntries(ids) + rest)[0] == ("Id", Str(ids.info));
  }

  /** The Id is one import-time constant: systems, controllers, disturbances and
      estimators all report it, whatever the oracle would draw at the call. */
  lemma SharedId(ids: ImportIds, u1: string, u2: string, u3: string, u4: string)
    ensures Lookup(AsDict(SystemCls(ids), u1).entries, "Id") == Some(Str(ids.info))
    ensures Lookup(AsDict(ControllerCls(ids), u2).entries, "Id") == Some(Str(ids.info))
    ensures Lookup(AsDict(DisturbanceCls(ids), u3).entries, "Id") == Some(Str(ids.info))
    ensures Lookup(AsDict(EstimatorCls(ids), u4).entries, "Id") == Some(Str(ids.info))
  {
    SystemDefaults(ids, u1);
    InfoIdFirst(ids, [("Disturbance", Dict([])), ("Estimator", Dict([]))]);
    ControllerDefaults(ids, u2);
    InfoIdFirst(ids, [
      ("IsComposable", Bool(false)), ("RefHorizon", Int(0)), ("Mux", Dict([])),
      ("Components", List([])), ("Disturbance", Dict([])), ("Estimator", Dict([]))]);
    DisturbanceDefaults(ids, u3);
    EstimatorDefaults(ids, u4);
    InfoIdFirst(ids, []);
    assert InfoEntries(ids) + [] == InfoEntries(ids);
  }

  /** A record class without a component type or a subcomponent list among its fields. */
  predicate Untyped(c: Cls)
  {
    ComponentType !in NamesOf(Fields(c)) && Subcomponents !in NamesOf(Fields(c))
  }

  lemma UntypedRoot(c: Cls, names: seq<Field>)
    requires c.base.None? && NamesOf(c.own) == names && Distinct(names)
    requires ComponentType !in names && Subcomponents !in names
    ensures Untyped(c)
  {
    FieldsOfRoot(c, names);
  }

  lemma UntypedChild(c: Cls, names: seq<Field>)
    requires c.base.Some? && c.base.value.base.None?
    requires NamesOf(c.base.value.own + c.own) == names && Distinct(names)
    requires ComponentType !in names && Subcomponents !in names
    ensures Untyped(c)
  {
    FieldsOfChild(c, names);
  }

  lemma MetadataUntyped()
    ensures Untyped(MetadataCls)
  {
    MetadataNames();
    MetadataDistinct();
    UntypedRoot(MetadataCls, [Name, Description, Author, Version, License, Tags, Created, Modified]);
  }

  lemma ControllerComponentUntyped(ids: ImportIds)
    ensures Untyped(ControllerComponentCls(ids))
  {
    ControllerComponentNames(ids);
    ControllerComponentDistinct();
    UntypedRoot(ControllerComponentCls(ids), [Id, Name, Description, ParamsFile, LibraryVersionHash, Library, LibraryVersion, PluginType, Callbacks, Mux]);
  }

  lemma ScenarioUntyped(ids: ImportIds)
    ensures Untyped(ScenarioCls(ids))
  {
    ScenarioNames(ids);
    ScenarioDistinct();
    UntypedRoot(ScenarioCls(ids), [Id, Name, Description, InitialCondition, Reference, ParamsFile, ConstHorizonReference]);
  }

  lemma MetricUntyped(ids: ImportIds)
    ensures Untyped(MetricCls(ids))
  {
    MetricNames(ids);
    MetricDistinct();
    UntypedRoot(MetricCls(ids), [Id, Name, Description, ParamsFile, Callback]);
  }

  lemma ControllerUntyped(ids: ImportIds)
    ensures Untyped(ControllerCls(ids))
  {
    ControllerNames(ids);
    ControllerDistinct();
    UntypedChild(ControllerCls(ids), [Id, Name, Description, ParamsFile, LibraryVersionHash, Library, LibraryVersion, PluginType, Callbacks, IsComposable, RefHorizon, Mux, Components, Disturbance, Estimator]);
  }

  lemma DisturbanceUntyped(ids: ImportIds)
    ensures Untyped(DisturbanceCls(ids))
  {
    DisturbanceNames(ids);
    InfoDistinct();
    UntypedChild(DisturbanceCls(ids), [Id, Name, Description, ParamsFile, LibraryVersionHash, Library, LibraryVersion, PluginType, Callbacks]);
  }

  lemma EstimatorUntyped(ids: ImportIds)
    ensures Untyped(EstimatorCls(ids))
  {
    EstimatorNames(ids);
    InfoDistinct();
    UntypedChild(EstimatorCls(ids), [Id, Name, Description, ParamsFile, LibraryVersionHash, Library, LibraryVersion, PluginType, Callbacks]);
  }

  lemma UntypedFields(c: Cls, fs: seq<Decl>, names: seq<Field>)
    requires Fields(c) == fs && NamesOf(fs) == names
    requires ComponentType !in names && Subcomponents !in names
    ensures Untyped(c)
  {
  }

  lemma SystemUntyped(ids: ImportIds)
    ensures Untyped(SystemCls(ids))
  {
    SystemFieldNames(ids);
    UntypedNames(SystemCls(ids), [Id, Name, Description, ParamsFile, LibraryVersionHash, Library, LibraryVersion, PluginType, Callbacks, Disturbance, Estimator]);
  }

  lemma SystemFieldNames(ids: ImportIds)
    ensures NamesOf(Fields(SystemCls(ids))) == [Id, Name, Description, ParamsFile, LibraryVersionHash, Library, LibraryVersion, PluginType, Callbacks, Disturbance, Estimator]
  {
    SystemFields(ids);
    SystemNames(ids);
  }

  lemma UntypedNames(c: Cls, names: seq<Field>)
    requires NamesOf(Fields(c)) == names
    requires ComponentType !in names && Subcomponents !in names
    ensures Untyped(c)
  {
  }

  /** No record of this layout declares a component type or a subcomponent list. */
  lemma NoTypeFields(ids: ImportIds)
    ensures Untyped(MetadataCls) && Untyped(SystemCls(ids)) && Untyped(ControllerCls(ids))
    ensures Untyped(ControllerComponentCls(ids)) && Untyped(ScenarioCls(ids)) && Untyped(MetricCls(ids))
    ensures Untyped(DisturbanceCls(ids)) && Untyped(EstimatorCls(ids))
  {
    MetadataUntyped();
    SystemUntyped(ids);
    ControllerUntyped(ids);
    ControllerComponentUntyped(ids);
    ScenarioUntyped(ids);
    MetricUntyped(ids);
    DisturbanceUntyped(ids);
    EstimatorUntyped(ids);
  }
}

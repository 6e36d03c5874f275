/** The record defaults of an environment: the dataclasses whose `as_dict` gives the
    initial document of a new component. */
module EnvModel {
  import opened Wrappers
  import opened Values
  import opened Dataclasses

  /** `create_callbacks()`. */
  function CreateCallbacks(): (r: Value)
    ensures r.Dict? && Keys(r.entries) == ["Initialize", "Step", "Reset", "Terminate"]
    ensures forall i :: 0 <= i < |r.entries| ==> r.entries[i].1 == Str("")
  {
    Dict([("Initialize", Str("")), ("Step", Str("")), ("Reset", Str("")), ("Terminate", Str(""))])
  }

  function Empty(): Default { Plain(Str("")) }

  const MetadataCls := Cls(None, [
    (Name, Plain(Str("New Environment"))),
    (Description, Empty()),
    (ComponentType, Plain(Str("metadata"))),
    (Metadata, FromFactory(Make(Dict([
      ("Authors", List([])), ("Version", Str("0.0.1")), ("License", Str("")),
      ("Tags", List([])), ("Created", Str("")), ("Modified", Str(""))]))))])

  const ComponentInfoCls := Cls(None, [
    (Id, FromFactory(NewUuid)), (Name, Empty()), (Description, Empty()),
    (LibVersionHash, Empty()), (Lib, Empty()), (LibVersion, Empty()),
    (PluginType, Empty()), (PluginName, Empty())])

  const SubcomponentInfoCls := Cls(None, [
    (Id, FromFactory(NewUuid)), (Name, Empty()), (Description, Empty()),
    (LibVersionHash, Empty()), (Lib, Empty()), (LibVersion, Empty()),
    (PluginType, Empty()), (PluginName, Empty()), (PluginImplementation, Empty()),
    (ParentComponentId, Empty()), (ParentComponentType, Empty())])

  const SystemCls := Cls(Some(ComponentInfoCls), [
    (ComponentType, Plain(Str("system"))),
    (Subcomponents, FromFactory(Make(List([Str("Disturbance")])))),
    (Disturbance, FromFactory(Make(Dict([]))))])

  const ControllerCls := Cls(Some(ComponentInfoCls), [
    (IsComposable, Plain(Bool(false))),
    (RefHorizon, Plain(Int(0))),
    (Mux, FromFactory(Make(Dict([])))),
    (ComponentType, Plain(Str("controller"))),
    (Subcontrollers, FromFactory(Make(List([])))),
    (Subcomponents, FromFactory(Make(List([Str("Subcontrollers")])))),
    (Disturbance, FromFactory(Make(Dict([]))))])

  const ControllerComponentCls := Cls(Some(SubcomponentInfoCls), [
    (Mux, FromFactory(Make(Dict([])))),
    (ComponentType, Plain(Str("subcontroller")))])

  const ScenarioCls := Cls(None, [
    (Id, FromFactory(NewUuid)), (Name, Empty()), (Description, Empty()),
    (ConstHorizonReference, Plain(Bool(false))),
    (ComponentType, Plain(Str("scenario"))),
    (SimulationTime, Plain(Float(0.0))),
    (Disturbance, FromFactory(Make(Dict([])))),
    (Subcomponents, FromFactory(Make(List([Str("Disturbance")]))))])

  const MetricCls := Cls(None, [
    (Id, FromFactory(NewUuid)), (Name, Empty()), (Description, Empty()),
    (ComponentType, Plain(Str("metric")))])

  const DisturbanceCls := Cls(Some(SubcomponentInfoCls), [(ComponentType, Plain(Str("disturbance")))])

  const EstimatorCls := Cls(Some(SubcomponentInfoCls), [(ComponentType, Plain(Str("estimator")))])

  /** The common fields of every component record, with a given Id. */
  function InfoEntries(uuid: string): Entries
  {
    [("Id", Str(uuid)), ("Name", Str("")), ("Description", Str("")),
     ("LibVersionHash", Str("")), ("Lib", Str("")), ("LibVersion", Str("")),
     ("PluginType", Str("")), ("PluginName", Str(""))]
  }

  /** The common fields of every subcomponent record, with a given Id. */
  function SubInfoEntries(uuid: string): Entries
  {
    InfoEntries(uuid) + [("PluginImplementation", Str("")), ("ParentComponentId", Str("")), ("ParentComponentType", Str(""))]
  }

  lemma InfoFlat(uuid: string)
    ensures Flat(ComponentInfoCls.own, uuid) == InfoEntries(uuid)
  {
  }

  lemma SubInfoFlat(uuid: string)
    ensures Flat(SubcomponentInfoCls.own, uuid) == SubInfoEntries(uuid)
  {
  }

  lemma InfoNames()
    ensures NamesOf(ComponentInfoCls.own) == [Id, Name, Description, LibVersionHash, Lib, LibVersion, PluginType, PluginName]
  {
  }

  lemma SubInfoNames()
    ensures NamesOf(SubcomponentInfoCls.own) == [Id, Name, Description, LibVersionHash, Lib, LibVersion, PluginType, PluginName, PluginImplementation, ParentComponentId, ParentComponentType]
  {
  }

  lemma MetadataNames()
    ensures NamesOf(MetadataCls.own) == [Name, Description, ComponentType, Metadata]
  {
  }

  lemma MetadataDistinct()
    ensures Distinct([Name, Description, ComponentType, Metadata])
  {
  }

  lemma MetadataOwn(uuid: string)
    ensures Flat(MetadataCls.own, uuid) == [
      ("Name", Str("New Environment")), ("Description", Str("")), ("ComponentType", Str("metadata")),
      ("Metadata", Dict([("Authors", List([])), ("Version", Str("0.0.1")), ("License", Str("")),
                         ("Tags", List([])), ("Created", Str("")), ("Modified", Str(""))]))]
  {
  }

  /** `Metadata.as_dict()`: the environment's name, its type and the nested metadata at
      version 0.0.1. */
  lemma MetadataDefaults(uuid: string)
    ensures AsDict(MetadataCls, uuid) == Dict([
      ("Name", Str("New Environment")), ("Description", Str("")), ("ComponentType", Str("metadata")),
      ("Metadata", Dict([("Authors", List([])), ("Version", Str("0.0.1")), ("License", Str("")),
                         ("Tags", List([])), ("Created", Str("")), ("Modified", Str(""))]))])
  {
    MetadataNames();
    MetadataDistinct();
    MetadataOwn(uuid);
    AsDictOfRoot(MetadataCls, [Name, Description, ComponentType, Metadata], uuid, [
      ("Name", Str("New Environment")), ("Description", Str("")), ("ComponentType", Str("metadata")),
      ("Metadata", Dict([("Authors", List([])), ("Version", Str("0.0.1")), ("License", Str("")),
                         ("Tags", List([])), ("Created", Str("")), ("Modified", Str(""))]))]);
  }

  lemma SystemNames()
    ensures NamesOf(ComponentInfoCls.own + SystemCls.own) == [Id, Name, Description, LibVersionHash, Lib, LibVersion, PluginType, PluginName, ComponentType, Subcomponents, Disturbance]
  {
  }

  lemma SystemDistinct()
    ensures Distinct([Id, Name, Description, LibVersionHash, Lib, LibVersion, PluginType, PluginName, ComponentType, Subcomponents, Disturbance])
  {
  }

  lemma SystemOwn(uuid: string)
    ensures Flat(SystemCls.own, uuid) == [
      ("ComponentType", Str("system")), ("Subcomponents", List([Str("Disturbance")])), ("Disturbance", Dict([]))]
  {
  }

  /** `System.as_dict()`: a fresh Id, the system type and an empty disturbance listed as
      its only subcomponent field. */
  lemma SystemDefaults(uuid: string)
    ensures AsDict(SystemCls, uuid) == Dict(InfoEntries(uuid) + [
      ("ComponentType", Str("system")), ("Subcomponents", List([Str("Disturbance")])), ("Disturbance", Dict([]))])
  {
    InfoFlat(uuid);
    SystemNames();
    SystemDistinct();
    SystemOwn(uuid);
    AsDictOfChild(SystemCls, [Id, Name, Description, LibVersionHash, Lib, LibVersion, PluginType, PluginName, ComponentType, Subcomponents, Disturbance], uuid, InfoEntries(uuid), [
      ("ComponentType", Str("system")), ("Subcomponents", List([Str("Disturbance")])), ("Disturbance", Dict([]))]);
  }

  lemma ControllerNames()
    ensures NamesOf(ComponentInfoCls.own + ControllerCls.own) == [Id, Name, Description, LibVersionHash, Lib, LibVersion, PluginType, PluginName, IsComposable, RefHorizon, Mux, ComponentType, Subcontrollers, Subcomponents, Disturbance]
  {
  }

  lemma ControllerDistinct()
    ensures Distinct([Id, Name, Description, LibVersionHash, Lib, LibVersion, PluginType, PluginName, IsComposable, RefHorizon, Mux, ComponentType, Subcontrollers, Subcomponents, Disturbance])
  {
  }

  lemma ControllerOwn(uuid: string)
    ensures Flat(ControllerCls.own, uuid) == [
      ("IsComposable", Bool(false)), ("RefHorizon", Int(0)), ("Mux", Dict([])),
      ("ComponentType", Str("controller")), ("Subcontrollers", List([])),
      ("Subcomponents", List([Str("Subcontrollers")])), ("Disturbance", Dict([]))]
  {
  }

  /** `Controller.as_dict()`: only `Subcontrollers` is listed as a subcomponent field; the
      `Disturbance` field is not. */
  lemma ControllerDefaults(uuid: string)
    ensures AsDict(ControllerCls, uuid) == Dict(InfoEntries(uuid) + [
      ("IsComposable", Bool(false)), ("RefHorizon", Int(0)), ("Mux", Dict([])),
      ("ComponentType", Str("controller")), ("Subcontrollers", List([])),
      ("Subcomponents", List([Str("Subcontrollers")])), ("Disturbance", Dict([]))])
  {
    InfoFlat(uuid);
    ControllerNames();
    ControllerDistinct();
    ControllerOwn(uuid);
    AsDictOfChild(ControllerCls, [Id, Name, Description, LibVersionHash, Lib, LibVersion, PluginType, PluginName, IsComposable, RefHorizon, Mux, ComponentType, Subcontrollers, Subcomponents, Disturbance], uuid, InfoEntries(uuid), [
      ("IsComposable", Bool(false)), ("RefHorizon", Int(0)), ("Mux", Dict([])),
      ("ComponentType", Str("controller")), ("Subcontrollers", List([])),
      ("Subcomponents", List([Str("Subcontrollers")])), ("Disturbance", Dict([]))]);
  }

  lemma ControllerComponentNames()
    ensures NamesOf(SubcomponentInfoCls.own + ControllerComponentCls.own) == [Id, Name, Description, LibVersionHash, Lib, LibVersion, PluginType, PluginName, PluginImplementation, ParentComponentId, ParentComponentType, Mux, ComponentType]
  {
  }

  lemma ControllerComponentDistinct()
    ensures Distinct([Id, Name, Description, LibVersionHash, Lib, LibVersion, PluginType, PluginName, PluginImplementation, ParentComponentId, ParentComponentType, Mux, ComponentType])
  {
  }

  lemma ControllerComponentOwn(uuid: string)
    ensures Flat(ControllerComponentCls.own, uuid) == [("Mux", Dict([])), ("ComponentType", Str("subcontroller"))]
  {
  }

  /** `ControllerComponent.as_dict()`: a subcontroller with the parent links empty. */
  lemma ControllerComponentDefaults(uuid: string)
    ensures AsDict(ControllerComponentCls, uuid) == Dict(SubInfoEntries(uuid) + [("Mux", Dict([])), ("ComponentType", Str("subcontroller"))])
  {
    SubInfoFlat(uuid);
    ControllerComponentNames();
    ControllerComponentDistinct();
    ControllerComponentOwn(uuid);
    AsDictOfChild(ControllerComponentCls, [Id, Name, Description, LibVersionHash, Lib, LibVersion, PluginType, PluginName, PluginImplementation, ParentComponentId, ParentComponentType, Mux, ComponentType], uuid, SubInfoEntries(uuid), [("Mux", Dict([])), ("ComponentType", Str("subcontroller"))]);
  }

  lemma ScenarioNames()
    ensures NamesOf(ScenarioCls.own) == [Id, Name, Description, ConstHorizonReference, ComponentType, SimulationTime, Disturbance, Subcomponents]
  {
  }

  lemma ScenarioDistinct()
    ensures Distinct([Id, Name, Description, ConstHorizonReference, ComponentType, SimulationTime, Disturbance, Subcomponents])
  {
  }

  lemma ScenarioOwn(uuid: string)
    ensures Flat(ScenarioCls.own, uuid) == [
      ("Id", Str(uuid)), ("Name", Str("")), ("Description", Str("")),
      ("ConstHorizonReference", Bool(false)), ("ComponentType", Str("scenario")),
      ("SimulationTime", Float(0.0)), ("Disturbance", Dict([])),
      ("Subcomponents", List([Str("Disturbance")]))]
  {
  }

  /** `Scenario.as_dict()`: a fresh Id, a zero simulation time and an empty disturbance
      listed as its only subcomponent field. */
  lemma ScenarioDefaults(uuid: string)
    ensures AsDict(ScenarioCls, uuid) == Dict([
      ("Id", Str(uuid)), ("Name", Str("")), ("Description", Str("")),
      ("ConstHorizonReference", Bool(false)), ("ComponentType", Str("scenario")),
      ("SimulationTime", Float(0.0)), ("Disturbance", Dict([])),
      ("Subcomponents", List([Str("Disturbance")]))])
  {
    ScenarioNames();
    ScenarioDistinct();
    ScenarioOwn(uuid);
    AsDictOfRoot(ScenarioCls, [Id, Name, Description, ConstHorizonReference, ComponentType, SimulationTime, Disturbance, Subcomponents], uuid, [
      ("Id", Str(uuid)), ("Name", Str("")), ("Description", Str("")),
      ("ConstHorizonReference", Bool(false)), ("ComponentType", Str("scenario")),
      ("SimulationTime", Float(0.0)), ("Disturbance", Dict([])),
      ("Subcomponents", List([Str("Disturbance")]))]);
  }

  lemma MetricNames()
    ensures NamesOf(MetricCls.own) == [Id, Name, Description, ComponentType]
  {
  }

  lemma MetricDistinct()
    ensures Distinct([Id, Name, Description, ComponentType])
  {
  }

  lemma MetricOwn(uuid: string)
    ensures Flat(MetricCls.own, uuid) == [
      ("Id", Str(uuid)), ("Name", Str("")), ("Description", Str("")), ("ComponentType", Str("metric"))]
  {
  }

  /** `Metric.as_dict()`: a fresh Id and the metric type. */
  lemma MetricDefaults(uuid: string)
    ensures AsDict(MetricCls, uuid) == Dict([
      ("Id", Str(uuid)), ("Name", Str("")), ("Description", Str("")), ("ComponentType", Str("metric"))])
  {
    MetricNames();
    MetricDistinct();
    MetricOwn(uuid);
    AsDictOfRoot(MetricCls, [Id, Name, Description, ComponentType], uuid, [
      ("Id", Str(uuid)), ("Name", Str("")), ("Description", Str("")), ("ComponentType", Str("metric"))]);
  }

  lemma DisturbanceNames()
    ensures NamesOf(SubcomponentInfoCls.own + DisturbanceCls.own) == [Id, Name, Description, LibVersionHash, Lib, LibVersion, PluginType, PluginName, PluginImplementation, ParentComponentId, ParentComponentType, ComponentType]
  {
  }

  lemma DisturbanceDistinct()
    ensures Distinct([Id, Name, Description, LibVersionHash, Lib, LibVersion, PluginType, PluginName, PluginImplementation, ParentComponentId, ParentComponentType, ComponentType])
  {
  }

  lemma DisturbanceOwn(uuid: string)
    ensures Flat(DisturbanceCls.own, uuid) == [("ComponentType", Str("disturbance"))]
  {
  }

  /** `Disturbance.as_dict()`: a subcomponent of type `disturbance`. */
  lemma DisturbanceDefaults(uuid: string)
    ensures AsDict(DisturbanceCls, uuid) == Dict(SubInfoEntries(uuid) + [("ComponentType", Str("disturbance"))])
  {
    SubInfoFlat(uuid);
    DisturbanceNames();
    DisturbanceDistinct();
    DisturbanceOwn(uuid);
    AsDictOfChild(DisturbanceCls, [Id, Name, Description, LibVersionHash, Lib, LibVersion, PluginType, PluginName, PluginImplementation, ParentComponentId, ParentComponentType, ComponentType], uuid, SubInfoEntries(uuid), [("ComponentType", Str("disturbance"))]);
  }

  lemma EstimatorNames()
    ensures NamesOf(SubcomponentInfoCls.own + EstimatorCls.own) == [Id, Name, Description, LibVersionHash, Lib, LibVersion, PluginType, PluginName, PluginImplementation, ParentComponentId, ParentComponentType, ComponentType]
  {
  }

  lemma EstimatorDistinct()
    ensures Distinct([Id, Name, Description, LibVersionHash, Lib, LibVersion, PluginType, PluginName, PluginImplementation, ParentComponentId, ParentComponentType, ComponentType])
  {
  }

  lemma EstimatorOwn(uuid: string)
    ensures Flat(EstimatorCls.own, uuid) == [("ComponentType", Str("estimator"))]
  {
  }

  /** `Estimator.as_dict()`: a subcomponent of type `estimator`. */
  lemma EstimatorDefaults(uuid: string)
    ensures AsDict(EstimatorCls, uuid) == Dict(SubInfoEntries(uuid) + [("ComponentType", Str("estimator"))])
  {
    SubInfoFlat(uuid);
    EstimatorNames();
    EstimatorDistinct();
    EstimatorOwn(uuid);
    AsDictOfChild(EstimatorCls, [Id, Name, Description, LibVersionHash, Lib, LibVersion, PluginType, PluginName, PluginImplementation, ParentComponentId, ParentComponentType, ComponentType], uuid, SubInfoEntries(uuid), [("ComponentType", Str("estimator"))]);
  }
  /** The environment metadata carries no Id. */
  lemma MetadataHasNoId(uuid: string)
    ensures !HasKey(AsDict(MetadataCls, uuid).entries, "Id")
  {
    MetadataDefaults(uuid);
    var md := Dict([("Authors", List([])), ("Version", Str("0.0.1")), ("License", Str("")),
                    ("Tags", List([])), ("Created", Str("")), ("Modified", Str(""))]);
    NoKey4("Name", "Description", "ComponentType", "Metadata", Str("New Environment"), Str(""), Str("metadata"), md, "Id");
  }

  /** A metric has no `Subcomponents` field at all. */
  lemma MetricHasNoSubcomponents(uuid: string)
    ensures !HasKey(AsDict(MetricCls, uuid).entries, "Subcomponents")
  {
    MetricDefaults(uuid);
    NoKey4("Id", "Name", "Description", "ComponentType", Str(uuid), Str(""), Str(""), Str("metric"), "Subcomponents");
  }

  /** Four entries whose keys all differ from `k` do not hold `k`. */
  lemma NoKey4(k0: string, k1: string, k2: string, k3: string, v0: Value, v1: Value, v2: Value, v3: Value, k: string)
    requires k0 != k && k1 != k && k2 != k && k3 != k
    ensures !HasKey([(k0, v0), (k1, v1), (k2, v2), (k3, v3)], k)
  {
    NoKeyAmong([(k0, v0), (k1, v1), (k2, v2), (k3, v3)], k);
  }

  /** A key unlike every key of the entries is absent. */
  lemma NoKeyAmong(e: Entries, k: string)
    requires forall i :: 0 <= i < |e| ==> e[i].0 != k
    ensures !HasKey(e, k)
  {
  }
}

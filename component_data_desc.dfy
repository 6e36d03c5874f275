/** The component type table: for every component type, where its records live inside
    an environment folder, the name of its data file, where its parameter file lives,
    which side-file descriptor it has and whether it is stored on its own
    (standalone) or inside a parent (embedded). */
module ComponentDataDesc {
  import opened Wrappers
  import opened Values
  import opened FileSystem

  datatype ComponentType =
    | Controller | System | Scenario | Metric | Metadata
    | Disturbance | Estimator | Subcontroller

  /** The side-file descriptor classes. */
  datatype DescClass = ControllerDesc | SystemDesc | ScenarioDesc | MetricDesc

  datatype TypeDesc = TypeDesc(
    destinationPath: Path,
    dataFile: string,
    paramsPath: Option<string>,
    dataDescClass: Option<DescClass>,
    standalone: bool)

  /** The type's key in the table, as it appears in a record's `ComponentType` field. */
  function TypeKey(t: ComponentType): string
  {
    match t
    case Controller => "controller"
    case System => "system"
    case Scenario => "scenario"
    case Metric => "metric"
    case Metadata => "metadata"
    case Disturbance => "disturbance"
    case Estimator => "estimator"
    case Subcontroller => "subcontroller"
  }

  /** Table lookup by key; `None` for a key the table does not have. */
  function ParseType(s: string): (r: Option<ComponentType>)
    ensures r.Some? ==> TypeKey(r.value) == s
  {
    if s == "controller" then Some(Controller)
    else if s == "system" then Some(System)
    else if s == "scenario" then Some(Scenario)
    else if s == "metric" then Some(Metric)
    else if s == "metadata" then Some(Metadata)
    else if s == "disturbance" then Some(Disturbance)
    else if s == "estimator" then Some(Estimator)
    else if s == "subcontroller" then Some(Subcontroller)
    else None
  }

  /** Every type is found under its own key. */
  lemma ParseTypeKey(t: ComponentType)
    ensures ParseType(TypeKey(t)) == Some(t)
  {
  }

  /** The table's entries, in the order they are written. */
  const AllTypes: seq<ComponentType> :=
    [Controller, System, Scenario, Metric, Metadata, Disturbance, Estimator, Subcontroller]

  function Desc(t: ComponentType): TypeDesc
  {
    match t
    case Controller => TypeDesc(["parts", "controllers"], "controller.json", Some("params"), Some(ControllerDesc), true)
    case System => TypeDesc(["parts", "systems"], "system.json", Some("params"), Some(SystemDesc), true)
    case Scenario => TypeDesc(["parts", "scenarios"], "scenario.json", None, Some(ScenarioDesc), true)
    case Metric => TypeDesc(["parts", "metrics"], "metric.json", None, Some(MetricDesc), true)
    case Metadata => TypeDesc(["config.json"], "", None, None, true)
    case Disturbance => TypeDesc(["disturbances"], "disturbance.json", Some("params"), None, false)
    case Estimator => TypeDesc(["estimators"], "estimator.json", Some("params"), None, false)
    case Subcontroller => TypeDesc(["subcontrollers"], "subcontroller.json", Some("params"), None, false)
  }

  predicate IsPart(t: ComponentType)
  {
    t in {Controller, System, Scenario, Metric}
  }

  predicate IsEmbedded(t: ComponentType)
  {
    t in {Disturbance, Estimator, Subcontroller}
  }

  /** Five standalone types and three embedded ones. */
  lemma StandaloneTypes()
    ensures (set t | t in AllTypes && Desc(t).standalone) == {Controller, System, Scenario, Metric, Metadata}
    ensures (set t | t in AllTypes && !Desc(t).standalone) == {Disturbance, Estimator, Subcontroller}
    ensures forall t: ComponentType :: t in AllTypes
  {
    forall t: ComponentType ensures t in AllTypes {
      match t
      case Controller => assert AllTypes[0] == t;
      case System => assert AllTypes[1] == t;
      case Scenario => assert AllTypes[2] == t;
      case Metric => assert AllTypes[3] == t;
      case Metadata => assert AllTypes[4] == t;
      case Disturbance => assert AllTypes[5] == t;
      case Estimator => assert AllTypes[6] == t;
      case Subcontroller => assert AllTypes[7] == t;
    }
  }

  /** A part lives under `parts/<plural>` with data file `<type>.json`. */
  lemma PartLayout(t: ComponentType)
    requires IsPart(t)
    ensures |Desc(t).destinationPath| == 2 && Desc(t).destinationPath[0] == "parts"
    ensures Desc(t).destinationPath[1] == TypeKey(t) + "s"
    ensures Desc(t).dataFile == TypeKey(t) + ".json"
  {
  }

  /** An embedded type lives in a bare plural folder with data file `<type>.json`. */
  lemma EmbeddedLayout(t: ComponentType)
    requires IsEmbedded(t)
    ensures Desc(t).destinationPath == [TypeKey(t) + "s"]
    ensures Desc(t).dataFile == TypeKey(t) + ".json"
  {
    match t
    case Disturbance => assert "disturbance" + "s" == "disturbances";
    case Estimator => assert "estimator" + "s" == "estimators";
    case Subcontroller => assert "subcontroller" + "s" == "subcontrollers";
  }

  /** Metadata is the single file `config.json` and has no data-file name. */
  lemma MetadataLayout()
    ensures Desc(Metadata).destinationPath == ["config.json"] && Desc(Metadata).dataFile == ""
  {
  }

  /** Parameter files belong to controllers, systems and the embedded types; side-file
      descriptors belong to the four part types. */
  lemma ParamsAndDescriptors(t: ComponentType)
    ensures Desc(t).paramsPath.Some? <==> t in {Controller, System, Disturbance, Estimator, Subcontroller}
    ensures Desc(t).paramsPath.Some? ==> Desc(t).paramsPath.value == "params"
    ensures Desc(t).dataDescClass.Some? <==> IsPart(t)
  {
  }

  /** A relative path written as text, with `/` between its names. */
  function PathText(p: Path): (r: string)
    ensures |p| == 1 ==> r == p[0]
  {
    if p == [] then "" else if |p| == 1 then p[0] else p[0] + "/" + PathText(p[1..])
  }

  /** The `destination_path` string of the table. */
  function DestinationText(t: ComponentType): string
  {
    PathText(Desc(t).destinationPath)
  }

  /** `v in COMPONENT_DATA_DESC`: a string is looked up by key, an unhashable value
      raises `TypeError`, and any other value is not a key. */
  function TypeFromValue(v: Value): (r: Result<Option<ComponentType>>)
    ensures v.Str? ==> r == Ok(ParseType(v.s))
    ensures r.Ok? && r.value.Some? ==> v == Str(TypeKey(r.value.value))
  {
    match v
    case Str(s) => Ok(ParseType(s))
    case List(_) => Err(TypeError("unhashable type: 'list'"))
    case Dict(_) => Err(TypeError("unhashable type: 'dict'"))
    case NdArray(_) => Err(TypeError("unhashable type: 'numpy.ndarray'"))
    case _ => Ok(None)
  }

  /** `COMPONENT_DATA_DESC[v]`: `KeyError` for a value that is not a key. */
  function TableLookup(v: Value): (r: Result<ComponentType>)
    ensures r.Ok? <==> v.Str? && ParseType(v.s).Some?
  {
    match TypeFromValue(v)
    case Err(e) => Err(e)
    case Ok(None) => Err(KeyError(if v.Str? then v.s else ""))
    case Ok(Some(t)) => Ok(t)
  }

  /** A type found in the table was named by its own key. */
  lemma TableLookupKey(v: Value)
    ensures TableLookup(v).Ok? ==> v == Str(TypeKey(TableLookup(v).value))
  {
  }
}

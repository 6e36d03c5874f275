/** The older, standalone-only table of component folders and data files. */
module ComponentPaths {
  import opened Wrappers
  import opened FileSystem
  import opened ComponentDataDesc

  /** `STANDALONE_COMPONENT_PATHS[t]`; `None` for a type the table does not list. */
  function StandalonePaths(t: ComponentType): Option<(Path, Option<string>)>
  {
    match t
    case Controller => Some((["parts", "controllers"], Some("controller.json")))
    case System => Some((["parts", "systems"], Some("system.json")))
    case Scenario => Some((["parts", "scenarios"], Some("scenario.json")))
    case Metric => Some((["parts", "metrics"], Some("metric.json")))
    case Metadata => Some((["config.json"], None))
    case _ => None
  }

  /** The table lists exactly the standalone types, puts each where the full type table
      does, and names the same data file, except that metadata has `None` where the full
      table has the empty name. */
  lemma AgreesWithTypeTable(t: ComponentType)
    ensures StandalonePaths(t).Some? <==> Desc(t).standalone
    ensures StandalonePaths(t).Some? ==> StandalonePaths(t).value.0 == Desc(t).destinationPath
    ensures StandalonePaths(t).Some? && t != Metadata ==>
      StandalonePaths(t).value.1 == Some(Desc(t).dataFile)
    ensures t == Metadata ==> StandalonePaths(t).value.1 == None && Desc(t).dataFile == ""
  {
  }
}

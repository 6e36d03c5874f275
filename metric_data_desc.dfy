/** The metric side-file descriptor: a `metric.py` and the shared callbacks file. */
module MetricDataDesc {
  import opened Wrappers
  import opened Strings
  import opened Values
  import opened FileSystem
  import opened DataDescBase

  /** The declared side files, in declaration order. */
  const FileNames: seq<string> := ["metric.py", "callbacks.py"]

  /** The generator of a declared file; `None` for a name that is not declared. */
  function Generate(name: string, comp: Value): (r: Option<string>)
    ensures r.Some? <==> name in FileNames
  {
    if name == "metric.py" then Some(MetricTemplate(comp))
    else if name == "callbacks.py" then Some(CallbacksTemplate(comp))
    else None
  }

  const MetricHead: string :=
    "from csbenchlab.helpers.metric_helpers import *\nimport numpy as np\n\n# Reference file for metric "
  const MetricDef: string := "def metric(results):"
  const MetricTail: string :=
    "\n\n# Implement this to generate reference values for the metric\n" + MetricDef + "\n    pass\n"

  /** `default_txt_file(metric)`. */
  function MetricTemplate(metric: Value): string
  {
    MetricHead + IdText(metric) + MetricTail
  }

  /** The declared files are exactly `metric.py` and the shared callbacks file. */
  lemma DeclaredFiles(comp: Value)
    ensures forall n :: n in FileNames <==> n == "metric.py" || n == "callbacks.py"
    ensures Generate("callbacks.py", comp) == Some(CallbacksTemplate(comp))
  {
  }

  /** The default `metric.py` embeds the metric's Id: distinct Ids give distinct files,
      and a metric without an Id gets the bare template. */
  lemma MetricTemplateId(a: Value, b: Value)
    ensures MetricTemplate(a) == MetricTemplate(b) ==> IdText(a) == IdText(b)
    ensures a.Dict? && !HasKey(a.entries, "Id") ==> MetricTemplate(a) == MetricHead + MetricTail
  {
    if MetricTemplate(a) == MetricTemplate(b) {
      BetweenInjective(MetricHead, IdText(a), IdText(b), MetricTail);
    }
  }

  /** The default `metric.py` defines `metric(results)`. */
  lemma MetricTemplateDefines(a: Value)
    ensures Contains(MetricTemplate(a), MetricDef)
  {
    var pre := "\n\n# Implement this to generate reference values for the metric\n";
    ContainsPiece(MetricHead + IdText(a) + pre, MetricDef, "\n    pass\n");
    assert MetricHead + IdText(a) + pre + MetricDef + "\n    pass\n" == MetricTemplate(a);
  }

  /** `MetricDataDesc(component_path)`: only records the folder. */
  method New(componentPath: Path) returns (d: DataDesc)
    ensures fresh(d) && d.path == componentPath && d.files == FileNames
  {
    d := new DataDesc(componentPath, FileNames);
  }
}

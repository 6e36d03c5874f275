/** The scenario side-file descriptor: a `scenario.py` that builds the scenario's
    reference and initial condition, and the shared callbacks file. */
module ScenarioDataDesc {
  import opened Wrappers
  import opened Strings
  import opened Values
  import opened FileSystem
  import opened DataDescBase

  /** The declared side files, in declaration order. */
  const FileNames: seq<string> := ["scenario.py", "callbacks.py"]

  /** The generator of a declared file; `None` for a name that is not declared. */
  function Generate(name: string, comp: Value): (r: Option<string>)
    ensures r.Some? <==> name in FileNames
  {
    if name == "scenario.py" then Some(DefaultScenario)
    else if name == "callbacks.py" then Some(CallbacksTemplate(comp))
    else None
  }

  const StepsCall: string := "reference = generate_steps(scenario, dt, system_dims, [1], 0)"
  const ZeroIc: string := "ic = np.zeros((system_dims[\"Outputs\"]))"

  /** `get_default_scenario_txt_file`: a plain string, not an f-string. */
  const DefaultScenario: string :=
    "from csbenchlab.helpers.reference_helpers import *\nfrom csbenchlab.helpers.ic_helpers import *\n"
    + "from csbenchlab.common_types import*\nimport numpy as np\n\ndef scenario(scenario, dt, system_dims):\n\n"
    + "    overrides = {}\n    "
    + StepsCall
    + "\n    "
    + ZeroIc
    + "\n\n    return ScenarioOptions(\n        reference=reference,\n        ic=ic,\n"
    + "        system_parameter_overrides=overrides\n    )\n"

  const OverrideHead: string :=
    "from csbenchlab.common_types import *\n\n# Override system parameters file for scenario "
  const OverrideTail: string :=
    "\n\n# Implement this to override certain system parameters for the scenario\n"
    + "def override_system_params(system_params):\n    return system_params\n"

  /** `get_default_override_system_params_txt_file`. */
  function OverrideTemplate(scenario: Value): string
  {
    OverrideHead + IdText(scenario) + OverrideTail
  }

  const IcHead: string :=
    "from csbenchlab.helpers.ic_helpers import *\nimport numpy as np\n\n# Initial conditions file for scenario "
  const IcTail: string :=
    "\n\n# Implement this to generate initial conditions for the scenario\n"
    + "def ic(scenario, system_dims):\n    return np.zeros(system_dims[\"Outputs\"])\n"

  /** `get_default_ic_txt_file`. */
  function IcTemplate(scenario: Value): string
  {
    IcHead + IdText(scenario) + IcTail
  }

  const RefHead: string :=
    "from csbenchlab.helpers.reference_helpers import *\nimport numpy as np\n\n# Reference file for scenario "
  const RefTail: string :=
    "\n\n# Implement this to generate reference values for the scenario\n"
    + "def reference(scenario, dt, system_dims):\n    pass\n"

  /** `get_default_ref_txt_file`. */
  function RefTemplate(scenario: Value): string
  {
    RefHead + IdText(scenario) + RefTail
  }

  /** The declared files are `scenario.py` and the shared callbacks file; the override,
      initial-condition and reference templates are not declared. */
  lemma DeclaredFiles(comp: Value)
    ensures Generate("callbacks.py", comp) == Some(CallbacksTemplate(comp))
    ensures Generate("ic.py", comp) == None && Generate("reference.py", comp) == None
    ensures forall n :: n in FileNames <==> n == "scenario.py" || n == "callbacks.py"
  {
  }

  /** The default `scenario.py` is the same for every scenario. */
  lemma DefaultScenarioIsConstant(a: Value, b: Value)
    ensures Generate("scenario.py", a) == Generate("scenario.py", b) == Some(DefaultScenario)
  {
  }

  /** The default scenario steps the reference to `[1]` on dimension 0 and starts from a
      zero initial condition. */
  lemma DefaultScenarioContents()
    ensures Contains(DefaultScenario, StepsCall)
    ensures Contains(DefaultScenario, ZeroIc)
  {
    var h := "from csbenchlab.helpers.reference_helpers import *\nfrom csbenchlab.helpers.ic_helpers import *\n"
      + "from csbenchlab.common_types import*\nimport numpy as np\n\ndef scenario(scenario, dt, system_dims):\n\n"
      + "    overrides = {}\n    ";
    var t := "\n\n    return ScenarioOptions(\n        reference=reference,\n        ic=ic,\n"
      + "        system_parameter_overrides=overrides\n    )\n";
    ContainsPiece(h, StepsCall, "\n    " + ZeroIc + t);
    assert h + StepsCall + ("\n    " + ZeroIc + t) == DefaultScenario;
    ContainsPiece(h + StepsCall + "\n    ", ZeroIc, t);
    assert h + StepsCall + "\n    " + ZeroIc + t == DefaultScenario;
  }

  /** The three undeclared templates embed the scenario's Id. */
  lemma TemplatesEmbedId(a: Value, b: Value)
    ensures OverrideTemplate(a) == OverrideTemplate(b) ==> IdText(a) == IdText(b)
    ensures IcTemplate(a) == IcTemplate(b) ==> IdText(a) == IdText(b)
    ensures RefTemplate(a) == RefTemplate(b) ==> IdText(a) == IdText(b)
  {
    if OverrideTemplate(a) == OverrideTemplate(b) {
      BetweenInjective(OverrideHead, IdText(a), IdText(b), OverrideTail);
    }
    if IcTemplate(a) == IcTemplate(b) {
      BetweenInjective(IcHead, IdText(a), IdText(b), IcTail);
    }
    if RefTemplate(a) == RefTemplate(b) {
      BetweenInjective(RefHead, IdText(a), IdText(b), RefTail);
    }
  }

  /** `ScenarioDataDesc(component_path)`: only records the folder. */
  method New(componentPath: Path) returns (d: DataDesc)
    ensures fresh(d) && d.path == componentPath && d.files == FileNames
  {
    d := new DataDesc(componentPath, FileNames);
  }
}

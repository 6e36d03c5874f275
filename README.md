# csbenchlab persistence and plugin-catalogue layer, in Dafny

csbenchlab is a tool for benchmarking control systems. An *environment* is a folder holding
controllers, systems, scenarios, metrics and metadata. These are the standalone component
types. Systems and controllers hold embedded subcomponents: disturbances, estimators and
subcontrollers. Plugins are collected in component libraries, which a registry folder lists.
Parameters are evaluated from Python parameter files. A MATLAB daemon is reached through a
small text protocol.

This project models that layer and proves properties of the model:

- **Type taxonomy.** The component type table and the standalone paths table
  (`component_data_desc.dfy`, `component_paths.dfy`), as total functions over a
  `ComponentType` datatype.
- **Filesystem.** The filesystem is a value: a map from paths to `Dir` or `File(text)`
  (`filesystem.dfy`). A `Disk` object holds it, and the operations that write files modify
  that object.
- **Python values.** Dicts are ordered association lists, because key order is visible in
  the written JSON and the generated sources (`values.dfy`). JSON encoding is a codec
  parameter.
- **Component stores.** The folder store `ComponentDataManager` / `EnvironmentDataManager`
  (`environment_data_manager.dfy`) and the older list/folder store
  (`env_file_manager.dfy`) are classes over the disk. Their load, save, remove and
  save-all are methods with loops, proved against functions on the filesystem value.
  `store_round_trip.dfy` proves that what `save_component` writes, `load_all` reads back.
- **Side files and parameter files.** The per-type file declarations and templates
  (`*_data_desc.dfy`, `data_desc_base.dfy`) and the single-file handler
  (`file_handler.dfy`). Also the component file handler, with Id-substituting
  duplication (`component_file_handler.dfy`), and the parameter handler with its
  parameter-source generator (`parameter_handler.dfy`).
- **Record defaults.** The dataclass records of both environment models and their
  `as_dict` (`dataclasses.dfy`, `env_model.dfy`, `legacy_env_model.dfy`). Fresh ids come from
  a parameter.
- **Editor data effects.** The data effects of the environment editor
  (`env_editor.dfy`): unique naming, add, duplicate with fresh ids and parent rewrite,
  remove, and the unsaved-change flags.
- **Enumeration and environment helpers.** Component enumeration and controller loading
  (`env_iterators.dfy`, `environment_data.dfy`, `environment_utils.dfy`). The system and
  controller selection, environment creation and script generation of both revisions of
  the environment helpers (`environment_helpers.dfy`, `legacy_environment_helpers.dfy`).
- **Plugins and libraries.** Plugin classification by ancestor chain, the plugin
  descriptor and the registry scan (`plugin_helpers.dfy`, `registry.dfy`,
  `descriptor.dfy`, `common_types.dfy`). The library registry: available plugins,
  library paths, plugin info and library listing (`library_helpers.dfy`).
- **Parameter evaluation.** Default-value dispatch and the evaluation of parameter files
  over an import oracle (`eval_parameters.dfy`).
- **Plugin lifecycle.** The plugin base class and the lifecycle of `Controller`,
  `DynSystem` and `DisturbanceGenerator` (`plugin_base.dfy`, `controller.dfy`,
  `dyn_system.dfy`, `disturbance_generator.dfy`).
- **MATLAB bridge.** The command table, request building, reply framing, reply parsing
  and start-up decisions of the MATLAB backend (`matlab_backend.dfy`).

Python's exceptions become a `Result`/`Outcome` error value that carries the exception
class.

Things the program gets from outside become parameters of the model:

- directory listing order;
- `uuid4` results;
- JSON/JSON5 encoding;
- dynamic imports;
- callables;
- the MATLAB daemon's bytes.

`pypaths.dfy` models the parts of `os.path` and `pathlib` that the code relies on: joining,
`basename`, `stem`, `splitext` and resolution against the working directory.

Where the code has a defect (see "## Findings"), the operations and methods compute what the code does as written. The corrected definitions are used only by the lemmas in the corrected-member column, and their rows say "corrected".

## Model

| member | source | states |
|---|---|---|
| Values.GetItem | env_file_manager.py:62 | `d[k]` succeeds exactly on a dict holding `k` and gives the value stored under it; a dict without `k` raises `KeyError(k)` |
| Values.GetOr | csbenchlab/environment_data_manager.py:153 | `d.get(k, default)` succeeds exactly on a dict, giving the value of a present key and the default otherwise |
| Values.In | csbenchlab/environment_data_manager.py:129 | `k in x` tests the keys of a dict, the elements of a list and the substrings of a string, and raises on anything else |
| Values.SetItem | csb_qt/csb_pyqt_env_manager.py:113 | `d[k] = v` succeeds exactly on a dict, after which `d[k]` is `v` |
| Values.LookupPutSame | csb_qt/csb_pyqt_env_manager.py:113 | after `d[k] = v`, `d[k]` is `v` |
| Values.LookupPutOther | csb_qt/csb_pyqt_env_manager.py:113-114 | after `d[k] = v`, every other key keeps its value |
| Values.KeysPut | csb_qt/csb_pyqt_env_manager.py:113-114 | assigning an existing key keeps the key order, and a new key goes last |
| Values.PutDistinct | csb_qt/csb_pyqt_env_manager.py:113-114 | assignment never gives a dict two entries for one key |
| Values.GetAttr | csbenchlab/registry.py:17 | attribute access succeeds exactly when the attribute is set and gives its value; otherwise it raises `AttributeError` naming it |
| Values.AttrOr | csbenchlab/registry.py:47 | `getattr(obj, name, default)` gives the attribute when it is set and the default otherwise |
| Values.IdText | csbenchlab/data_desc/data_desc_base.py:60 | `comp.get('Id', '')` rendered in an f-string: a string `Id` renders as itself and a missing one as `""` |
| Values.Iterate | csbenchlab/environment_data_manager.py:130 | `for x in v` works exactly on a list, dict, string or array, and a list yields its items in order |
| FileSystem.ReadText | csbenchlab/file_handler.py:43-44 | reading succeeds exactly on a regular file and gives its text; a missing path raises `FileNotFoundError` |
| FileSystem.WriteText | csbenchlab/file_handler.py:22-23 | `open(p, 'w').write(t)` succeeds exactly when the parent is a folder and `p` is not one, and then `p` is a file holding `t` |
| FileSystem.MakeDirsIfMissing | csbenchlab/environment_data_manager.py:71 | `mkdir(parents=True, exist_ok=True)` leaves an existing path alone and otherwise creates the missing folders as `os.makedirs` does |
| FileSystem.WriteCreatingParent | csbenchlab/file_handler.py:13-23 | creating the parent folders and then the file: on success `p` holds `t`, no other existing entry changes, and only `p` and its ancestors are added |
| FileSystem.Unlink | csbenchlab/environment_data_manager.py:59 | unlinking succeeds exactly on a regular file and removes only that entry |
| FileSystem.RemoveTree | csbenchlab/environment_data_manager.py:57 | `shutil.rmtree` succeeds exactly on a folder and removes it with everything below it, and nothing else |
| FileSystem.Copy | csbenchlab/data_desc/data_desc_base.py:44 | copying fails for a source that is not a file; a file copied to a path that is not a folder writes the source text there |
| FileSystem.LoadJson | csbenchlab/environment_data_manager.py:91-96 | a missing path raises `FileNotFoundError`, a folder raises `IsADirectoryError`, and a file gives the parser's result on its text |
| FileSystem.SaveJson | csbenchlab/environment_data_manager.py:98-100 | a JSON value dumped where a file can be written becomes that file's text; a path that cannot be written fails and changes nothing |
| FileSystem.SaveJsonPass | csbenchlab/environment_data_manager.py:98-100 | a successful dump wrote a JSON value, and wrote only at its path |
| FileSystem.SaveLoadJson | csbenchlab/environment_data_manager.py:91-100 | with a codec that reads back what it wrote, a value saved at a path loads back unchanged |
| FileSystem.Disk.Mkdir | csbenchlab/backend/environment_helpers.py:62 | `os.makedirs` on the disk: the folders are created as `MakeDirs` says, or on failure nothing changes; the disk stays well formed |
| FileSystem.Disk.MkdirIfMissing | csbenchlab/environment_data_manager.py:71 | `mkdir(parents=True, exist_ok=True)` on the disk: the disk becomes `MakeDirsIfMissing` of the old one, or is unchanged on failure |
| FileSystem.Disk.Write | csbenchlab/backend/environment_helpers.py:67-68 | writing a file on the disk: the disk becomes `WriteText` of the old one, or is unchanged on failure |
| FileSystem.Disk.Delete | csbenchlab/environment_data_manager.py:85 | unlinking on the disk: the disk becomes `Unlink` of the old one, or is unchanged on failure |
| FileSystem.Disk.Rmtree | csbenchlab/environment_data_manager.py:89 | `shutil.rmtree` on the disk: the disk becomes `RemoveTree` of the old one, or is unchanged on failure |
| FileSystem.Disk.WriteMakingParent | csbenchlab/file_handler.py:13-23 | the disk and outcome become `WriteCreatingParent` of the old disk |
| FileSystem.Disk.DumpJson | csbenchlab/environment_data_manager.py:98-100 | `json.dump` into a file on the disk: the disk and outcome become `SaveJson` of the old disk |
| PyPaths.JoinText | csbenchlab/backend/environment_helpers.py:58 | `os.path.join(a, b)` with an absolute `b` gives `b` |
| PyPaths.ResolveJoin | csbenchlab/backend/environment_helpers.py:58 | a path joined with a relative one names the place below the first reached by the second's components |
| PyPaths.Name | csbenchlab/environment_data.py:11 | `Path(s).name` holds no separator |
| PyPaths.StemOf | csbenchlab/backend/environment_helpers.py:92 | the stem of a name is a prefix of that name |
| PyPaths.Stem | csbenchlab/backend/environment_helpers.py:92 | `Path(s).stem` holds no separator |
| PyPaths.StemOfDotted | csbenchlab/backend/environment_helpers.py:92 | the stem of the folder `envs/demo.v2` is `demo`: only the last extension is cut |
| PyPaths.Basename | csbenchlab/plugin_helpers.py:41 | `os.path.basename(s)` holds no separator |
| PyPaths.SplitextRoot | csbenchlab/plugin_helpers.py:41 | the root `os.path.splitext` gives is a prefix of the name |
| PyPaths.SplitextExamples | csbenchlab/plugin_helpers.py:41 | `PID.py` gives `PID`, `a.b.py` gives `a.b`, and `.hidden` is kept whole |
| PyPaths.StemSplitextDisagree | csbenchlab/backend/environment_helpers.py:92 | on `env.` the stem keeps the trailing dot and `splitext` drops it |
| Strings.NatToStringInjective | csb_qt/csb_pyqt_env_manager.py:271-274 | distinct counters render as distinct decimal strings |
| Strings.ReplaceAbsent | qt/csbenchlab/component_file_handler.py:66 | replacing a non-empty text that does not occur leaves the source unchanged |
| Strings.ReplaceSelf | qt/csbenchlab/component_file_handler.py:66 | replacing a non-empty text by itself leaves the source unchanged |
| Strings.ReplaceEmpty | qt/csbenchlab/component_file_handler.py:66 | `s.replace("", rep)` inserts `rep` before every character and at the end |
| CommonTypes.ScenarioOptionsKeys | csbenchlab/common_types.py:17-24 | the options data has exactly the six keys `SystemIc`, `SystemParameterOverrides`, `Reference`, `DisturbanceParameterOverrides`, `NumEvaluations`, `RandomSeed`, none twice, whatever the arguments |
| CommonTypes.ScenarioOptionsDefaults | csbenchlab/common_types.py:9-16 | left at their defaults, the options evaluate once with seed 42, keep the reference given and start from an empty initial condition |
| CommonTypes.ClsAsString | csbenchlab/common_types.py:73-80 | `cls_as_string` raises `ValueError` exactly when the class lacks `file_path` or `var_name` |
| CommonTypes.DecorateLoadFromFile | csbenchlab/common_types.py:89-97 | the decorator adds the flag, both attributes and `as_string` to the class and leaves every other attribute as it was |
| CommonTypes.DecoratedAsString | csbenchlab/common_types.py:94-95 | the attached `as_string` reads `var_name` and then `file_path` when it is called and raises `AttributeError` for the first one that is gone, so a class that lost both fails on `var_name` |
| CommonTypes.DecoratedEncodes | csbenchlab/common_types.py:67-97 | a decorated class renders, through `cls_as_string` and through the attached `as_string`, exactly as `LoadFromFile(file_path, var_name).as_string()` |
| CommonTypes.DecoratedAsStringLate | csbenchlab/common_types.py:94-95 | reassigning `file_path` after decoration changes what the attached `as_string` renders |
| CommonTypes.DecorateMatlabFunction | csbenchlab/common_types.py:101-107 | the decorator sets the function name, the backend `'m'` and the keyword arguments and leaves every other attribute alone |
| CommonTypes.EncodingsDisjoint | csbenchlab/common_types.py:50-84 | the MATLAB-expression, MATLAB-file and load-from-file encodings never coincide |
| CommonTypes.MatEncodingsDecode | csbenchlab/common_types.py:50-64 | each MATLAB encoding is its prefix followed by the argument, which can be read back after the prefix |
| CommonTypes.LoadFromFileAmbiguous | csbenchlab/common_types.py:82-84 | the load-from-file encoding is not injective: the path `a:b` with no variable renders like the path `a` with variable `b` |
| ComponentDataDesc.ParseTypeKey | csbenchlab/data_desc/component_data_desc.py:5-55 | every component type is found in the table under its own key |
| ComponentDataDesc.StandaloneTypes | csbenchlab/data_desc/component_data_desc.py:5-55 | controller, system, scenario, metric and metadata are standalone; disturbance, estimator and subcontroller are not; the table has no other type |
| ComponentDataDesc.PartLayout | csbenchlab/data_desc/component_data_desc.py:6-31 | a controller, system, scenario or metric lives under `parts/<type>s` with the data file `<type>.json` |
| ComponentDataDesc.EmbeddedLayout | csbenchlab/data_desc/component_data_desc.py:37-54 | a disturbance, estimator or subcontroller lives under `<type>s` with the data file `<type>.json` |
| ComponentDataDesc.MetadataLayout | csbenchlab/data_desc/component_data_desc.py:32-36 | metadata is the single file `config.json`, with an empty data-file name |
| ComponentDataDesc.ParamsAndDescriptors | csbenchlab/data_desc/component_data_desc.py:5-55 | exactly the controller, system, disturbance, estimator and subcontroller have the `params` folder, and exactly the four part types have a data-description class |
| ComponentDataDesc.TypeFromValue | csbenchlab/data_desc/component_data_desc.py:5-55 | a string is looked up in the table (unknown keys give no type), and a type found is the one whose key that string is |
| ComponentDataDesc.TableLookup | csbenchlab/data_desc/component_data_desc.py:5-55 | subscripting the table succeeds exactly for a string that is one of its keys |
| ComponentDataDesc.TableLookupKey | csbenchlab/data_desc/component_data_desc.py:5-55 | the type found by subscripting is the one whose key was given |
| ComponentDataDesc.ParseType | csbenchlab/data_desc/component_data_desc.py:5-55 | a type found under a key is the one whose key it is |
| ComponentPaths.AgreesWithTypeTable | csbenchlab/component_paths.py:3-9 | the standalone-path table has exactly the standalone types, gives each the folder and data file of the type table, and gives metadata no data file |
| DataDescBase.CallbacksDefinesHooks | csbenchlab/data_desc/data_desc_base.py:55-72 | the default callbacks file defines `on_load`, `on_start` and `on_end` |
| DataDescBase.CallbacksEmbedsId | csbenchlab/data_desc/data_desc_base.py:55-72 | the default callbacks file names the component's `Id` (two files are equal only when the Ids render alike), and a component without `Id` renders an empty name |
| DataDescBase.RemoveIfExistsSpec | csbenchlab/data_desc/data_desc_base.py:19-23 | removing a declared file deletes exactly that path when it is a file or missing, and fails without change on a directory |
| DataDescBase.RemoveDeclaredSpec | csbenchlab/data_desc/data_desc_base.py:46-50 | `remove` succeeds exactly when no declared name is a directory, and then deletes exactly the declared paths |
| DataDescBase.DuplicateSpec | csbenchlab/data_desc/data_desc_base.py:33-35 | an empty new id raises `ValueError("New ID must be provided")` and changes nothing |
| DataDescBase.DuplicateIntoNewFolder | csbenchlab/data_desc/data_desc_base.py:33-44 | duplicating into a new folder creates that folder and copies into it each declared file that exists, and nothing else changes |
| DataDescBase.CopyDeclaredAt | csbenchlab/data_desc/data_desc_base.py:40-44 | the copy loop adds exactly the copies of the existing declared files, each with its source's contents |
| DataDescBase.CopyKeepsWellFormed | csbenchlab/data_desc/data_desc_base.py:44 | copying a file keeps every path's parent a directory |
| DataDescBase.DataDesc.constructor | csbenchlab/data_desc/data_desc_base.py:9-10 | a description records its component path and its declared files |
| DataDescBase.DataDesc.RemoveFile | csbenchlab/data_desc/data_desc_base.py:19-23 | the disk afterwards is the specification's, and stays well-formed |
| DataDescBase.DataDesc.Remove | csbenchlab/data_desc/data_desc_base.py:46-50 | the loop's result is `RemoveDeclared` of the old disk, which stays well-formed |
| DataDescBase.DataDesc.Duplicate | csbenchlab/data_desc/data_desc_base.py:33-44 | the result and new disk are `DuplicateSpec` of the old disk, which stays well-formed |
| ControllerDataDesc.Generate | csbenchlab/data_desc/controller_data_desc.py:9-13 | a generator exists exactly for the declared file names |
| ControllerDataDesc.DeclaredFiles | csbenchlab/data_desc/controller_data_desc.py:9-13 | the controller declares only `callbacks.py`, generated by the default callbacks template |
| ControllerDataDesc.RemoveTouchesOnlyCallbacks | csbenchlab/data_desc/controller_data_desc.py:9-13 | removing a controller's files deletes only its `callbacks.py`, failing only if that is a directory |
| ControllerDataDesc.New | csbenchlab/data_desc/controller_data_desc.py:6-7 | a new description has the given path and the controller's files |
| SystemDataDesc.Generate | csbenchlab/data_desc/system_data_desc.py:9-13 | a generator exists exactly for the declared file names |
| SystemDataDesc.DeclaredFiles | csbenchlab/data_desc/system_data_desc.py:9-13 | the system declares only `callbacks.py`, generated by the default callbacks template |
| SystemDataDesc.RemoveTouchesOnlyCallbacks | csbenchlab/data_desc/system_data_desc.py:9-13 | removing a system's files deletes only its `callbacks.py`, failing only if that is a directory |
| SystemDataDesc.New | csbenchlab/data_desc/system_data_desc.py:6-7 | a new description has the given path and the system's files |
| MetricDataDesc.Generate | csbenchlab/data_desc/metric_data_desc.py:9-14 | a generator exists exactly for the declared file names |
| MetricDataDesc.DeclaredFiles | csbenchlab/data_desc/metric_data_desc.py:9-14 | a metric declares `metric.py` and `callbacks.py`, the latter from the default callbacks template |
| MetricDataDesc.MetricTemplateId | csbenchlab/data_desc/metric_data_desc.py:16-25 | the metric template names the metric's `Id`, and renders an empty name when it has none |
| MetricDataDesc.MetricTemplateDefines | csbenchlab/data_desc/metric_data_desc.py:16-25 | the metric template defines `metric(results)` |
| MetricDataDesc.New | csbenchlab/data_desc/metric_data_desc.py:6-7 | a new description has the given path and the metric's files |
| ScenarioDataDesc.Generate | csbenchlab/data_desc/scenario_data_desc.py:10-17 | a generator exists exactly for the declared file names |
| ScenarioDataDesc.DeclaredFiles | csbenchlab/data_desc/scenario_data_desc.py:10-17 | a scenario declares `scenario.py` and `callbacks.py`; `ic.py` and `reference.py` are commented out and have no generator |
| ScenarioDataDesc.DefaultScenarioIsConstant | csbenchlab/data_desc/scenario_data_desc.py:52-69 | the default `scenario.py` does not depend on the scenario |
| ScenarioDataDesc.DefaultScenarioContents | csbenchlab/data_desc/scenario_data_desc.py:52-69 | the default scenario generates a unit step reference and a zero initial condition |
| ScenarioDataDesc.TemplatesEmbedId | csbenchlab/data_desc/scenario_data_desc.py:19-49 | the override, initial-condition and reference templates name the scenario's `Id` |
| ScenarioDataDesc.New | csbenchlab/data_desc/scenario_data_desc.py:7-8 | a new description has the given path and the scenario's files |
| Descriptor.LogEntryRepr | csbenchlab/descriptor.py:8-9 | the representation is `LogEntry(name=` + name + `)`, fifteen characters longer than the name |
| Descriptor.LogEntryReprShowsName | csbenchlab/descriptor.py:8-9 | the name can be read back from the representation |
| Descriptor.LogEntryReprInjective | csbenchlab/descriptor.py:8-9 | two log entries with the same representation are equal |
| Descriptor.NewParamDescriptor | csbenchlab/descriptor.py:16-20 | the descriptor keeps the four arguments given, defaulting to `0`, `None` and `""` |
| Descriptor.DescGetItem | csbenchlab/descriptor.py:23-33 | a key other than the four raises `KeyError("Key <key> not found in ParamDescription")` |
| Descriptor.DescriptorDefaults | csbenchlab/descriptor.py:16-33 | a descriptor made from a name alone subscripts to that name, `0`, `None` and `""` |
| Descriptor.AsDictSubscript | csbenchlab/descriptor.py:23-33 | the dict form subscripts like the descriptor, and both raise `KeyError` on any other key |
| Descriptor.AsDict | csbenchlab/descriptor.py:23-33 | the dict form of a descriptor has four distinct keys |
| FileHandler.BaseName | csbenchlab/file_handler.py:10 | the handler's name is the longest prefix of the file name without a dot, ending just before the first dot when there is one |
| FileHandler.BaseNameUnique | csbenchlab/file_handler.py:10 | any prefix with those properties is that name |
| FileHandler.SeedSpec | csbenchlab/file_handler.py:19-23 | an existing path is left untouched; otherwise the file is written with the default text, and a failed write changes nothing |
| FileHandler.CreateEffect | csbenchlab/file_handler.py:7-16 | creating a handler never changes an existing entry, adds only the file and the folders above it, and a file it creates holds the default text |
| FileHandler.CreateKeepsExisting | csbenchlab/file_handler.py:13-21 | creating a handler over an existing file changes nothing |
| FileHandler.DeleteSpec | csbenchlab/file_handler.py:32-34 | a missing file is no error; an existing one is unlinked |
| FileHandler.DuplicateEffect | csbenchlab/file_handler.py:40-48 | a missing source gives `None` and no change; a copy returns the destination path and puts the source's contents there and nowhere else; an error changes nothing |
| FileHandler.DuplicateNeedsFolder | csbenchlab/file_handler.py:40-46 | duplicating into a folder that does not exist raises `FileNotFoundError` for the destination |
| FileHandler.ComponentFileHandler.constructor | csbenchlab/file_handler.py:7-12 | the handler keeps its arguments, its name and its file path |
| FileHandler.ComponentFileHandler.Create | csbenchlab/file_handler.py:7-16 | construction has the effect that `CreateSpec` gives, and an exception it raises is the error returned |
| FileHandler.ComponentFileHandler.MakeFileIfNotExists | csbenchlab/file_handler.py:19-23 | the disk and outcome are `SeedSpec` of the old disk |
| FileHandler.ComponentFileHandler.DeleteFile | csbenchlab/file_handler.py:32-34 | the disk and outcome are `DeleteSpec` of the old disk; an error leaves the disk as it was |
| FileHandler.ComponentFileHandler.DuplicateFile | csbenchlab/file_handler.py:40-48 | the disk and result are `DuplicateSpec` of the old disk |
| ParameterHandler.ParamFilePath | qt/csbenchlab/parameter_handler.py:64-66 | the parameter file is `<comp_path>/<Id>/<relative path>`; a component without `Id` raises `KeyError('Id')` |
| ParameterHandler.RequireId | qt/csbenchlab/parameter_handler.py:22-23 | the guard passes exactly when `'Id' in component` holds |
| ParameterHandler.DuplicateSpec | qt/csbenchlab/parameter_handler.py:21-37 | without `Id` it raises and changes nothing; a missing parameter file gives `None`; a copy is written to the new path with every old Id replaced by the new one; no other existing file changes and only folders above the new path are added |
| ParameterHandler.HasSpec | qt/csbenchlab/parameter_handler.py:55-57 | the answer is whether the parameter file exists, and it raises exactly when the path cannot be formed |
| ParameterHandler.RemoveSpec | qt/csbenchlab/parameter_handler.py:59-62 | an existing parameter file is deleted and a missing one is no error; a failure changes nothing |
| ParameterHandler.FirstLine | qt/csbenchlab/parameter_handler.py:105-128 | the first pass writes a typed `key: ...` line exactly for a bool, int, float, ordinary string, `None`, array, list or dict |
| ParameterHandler.SecondLine | qt/csbenchlab/parameter_handler.py:129-139 | the second pass writes a line exactly for a function, a special string or a key the first pass set aside, as a field or as a commented `# key: ...` line |
| ParameterHandler.Indented | qt/csbenchlab/parameter_handler.py:141 | the field block indents each line by four spaces |
| ParameterHandler.FieldsTextIndented | qt/csbenchlab/parameter_handler.py:141 | the field block is the indented lines joined by newlines |
| ParameterHandler.ParamsEntries | qt/csbenchlab/parameter_handler.py:100-101 | a dict of parameters is used as it is |
| ParameterHandler.ListParamsDistinct | qt/csbenchlab/parameter_handler.py:100-101 | building the dict from a list of descriptors never repeats a key |
| ParameterHandler.LastDescriptorWins | qt/csbenchlab/parameter_handler.py:101 | when two descriptors share a name, the last one's default value is kept |
| ParameterHandler.KeyGetsOneLine | qt/csbenchlab/parameter_handler.py:105-139 | each key gets exactly one line: from the first pass, or else from the second |
| ParameterHandler.RestKeysMember | qt/csbenchlab/parameter_handler.py:127-128 | the keys set aside are exactly those whose value the first pass does not support |
| ParameterHandler.FieldsCount | qt/csbenchlab/parameter_handler.py:103-139 | with distinct keys, as in every dict, the generated class has exactly one line per parameter |
| ParameterHandler.FirstFieldsAppend | qt/csbenchlab/parameter_handler.py:105-128 | the first pass keeps parameter order |
| ParameterHandler.SrcNamesId | qt/csbenchlab/parameter_handler.py:83-142 | the generated file's header names the component's `Id`, or nothing when it has none |
| ParameterHandler.SetSpec | qt/csbenchlab/parameter_handler.py:68-80 | without `Id` it raises and changes nothing; on success the parameter file holds the generated source and its path is returned |
| ParameterHandler.ParameterHandler.constructor | qt/csbenchlab/parameter_handler.py:12-13 | the handler keeps the component destination path |
| ParameterHandler.ParameterHandler.DuplicateComponentParams | qt/csbenchlab/parameter_handler.py:21-37 | the disk and result are `DuplicateSpec` of the old disk |
| ParameterHandler.ParameterHandler.HasComponentParams | qt/csbenchlab/parameter_handler.py:55-57 | the result is `HasSpec` of the disk |
| ParameterHandler.ParameterHandler.RemoveComponentParams | qt/csbenchlab/parameter_handler.py:59-62 | the disk and outcome are `RemoveSpec` of the old disk |
| ParameterHandler.ParameterHandler.SetComponentParams | qt/csbenchlab/parameter_handler.py:68-80 | the disk and result are `SetSpec` of the old disk |
| ParameterHandler.MakeParamsFileSrc | qt/csbenchlab/parameter_handler.py:82-143 | the two loops produce `ParamsSrc` of the parameters |
| ParameterHandler.FirstPass | qt/csbenchlab/parameter_handler.py:103-128 | the first loop produces the first-pass lines and the keys set aside |
| ParameterHandler.SecondPass | qt/csbenchlab/parameter_handler.py:129-139 | the second loop produces the second-pass lines |
| ComponentFileHandler.DescFiles | qt/csbenchlab/component_file_handler.py:14 | a data-description class declares non-empty file names, none twice, as the keys of its `files` dict |
| ComponentFileHandler.DescGenerate | qt/csbenchlab/component_file_handler.py:24 | a generator exists exactly for the declared file names |
| ComponentFileHandler.ComponentDir | qt/csbenchlab/component_file_handler.py:35-40 | the component's folder is `<folder>/<Id>` for a standalone type and `<folder>/<destination>/<Id>` otherwise, and needs a string `Id` and a known `ComponentType` |
| ComponentFileHandler.ResolveFilePath | qt/csbenchlab/component_file_handler.py:29-41 | a path is resolved only for a declared file name of a class that has files; it is the name inside the component's folder, and raises exactly when that folder cannot be formed |
| ComponentFileHandler.HasFilesFromSpec | qt/csbenchlab/component_file_handler.py:46-50 | the loop answers whether any declared file exists in the component's folder, and raises when the folder cannot be formed |
| ComponentFileHandler.HasFilesMeaning | qt/csbenchlab/component_file_handler.py:43-50 | `has_files` is `False` without a class or without declared files; otherwise it is whether one of the declared files exists |
| ComponentFileHandler.CopyReplacing | qt/csbenchlab/component_file_handler.py:59-68 | a missing source is skipped; a copy writes the source text with the old Id replaced by the new Id; nothing else existing changes and only folders above the destination are added |
| ComponentFileHandler.DuplicateLoopFrame | qt/csbenchlab/component_file_handler.py:56-68 | the loop changes only the destination files |
| ComponentFileHandler.StepKeepsSources | qt/csbenchlab/component_file_handler.py:57-68 | with source and destination folders apart, a step leaves every source file as it was |
| ComponentFileHandler.DuplicateLoopWrites | qt/csbenchlab/component_file_handler.py:56-68 | after a successful loop each existing source file has a copy in the new folder with the Ids replaced |
| ComponentFileHandler.DuplicateFilesEffect | qt/csbenchlab/component_file_handler.py:52-68 | without a class `duplicate_files` raises `AttributeError`; otherwise it changes only the destination files and, on success, copies each existing declared file with its Ids replaced |
| ComponentFileHandler.DuplicateFilesNeedsId | qt/csbenchlab/component_file_handler.py:53-54 | a new component without `Id` raises `ValueError` and changes nothing |
| ComponentFileHandler.OpenFileSpec | qt/csbenchlab/component_file_handler.py:19-26 | an existing file is left alone; the only change is writing a missing declared file with its generated default text |
| ComponentFileHandler.ComponentFileHandler.constructor | qt/csbenchlab/component_file_handler.py:9-16 | the handler keeps its folder and its data-description class, if any |
| ComponentFileHandler.ComponentFileHandler.OpenFile | qt/csbenchlab/component_file_handler.py:19-26 | the disk and outcome are `OpenFileSpec` of the old disk |
| ComponentFileHandler.ComponentFileHandler.HasFiles | qt/csbenchlab/component_file_handler.py:43-50 | the loop's answer is `HasFilesSpec` of the disk |
| ComponentFileHandler.ComponentFileHandler.CopyFile | qt/csbenchlab/component_file_handler.py:59-68 | the disk and outcome are `CopyReplacing` of the old disk |
| ComponentFileHandler.ComponentFileHandler.DuplicateFiles | qt/csbenchlab/component_file_handler.py:52-68 | the disk and outcome are `DuplicateFilesSpec` of the old disk |
| ComponentFileHandler.ComponentFileHandler.DuplicateOne | qt/csbenchlab/component_file_handler.py:57-68 | one round of the copy loop leaves the disk and outcome of `DuplicateStep` |
| ComponentFileHandler.ComponentFileHandler.DuplicateAll | qt/csbenchlab/component_file_handler.py:56-68 | the copy loop over the declared file names leaves the disk and outcome of `DuplicateLoop` |
| EnvironmentDataManager.ChildFile | csbenchlab/environment_data_manager.py:148-167 | an embedded body is stored at `<root>/<parentId>/subcomponents/<dest>/<childId>/<field>.json` |
| EnvironmentDataManager.BackRef | csbenchlab/environment_data_manager.py:163 | the back-reference left in the parent is a non-empty dict, so `_fill_subcomponents` does not skip it |
| EnvironmentDataManager.StoreValueErrors | csbenchlab/environment_data_manager.py:151-155 | storing a non-dict raises `AttributeError`, and a dict without `Id` raises `ValueError` |
| EnvironmentDataManager.StoreValueEmpty | csbenchlab/environment_data_manager.py:142-155 | the corrected store refuses a body whose `Id` is `""`, as `_load_value` does; the store as written accepts it (see `StoreRoundTrip.EmptyIdStored`) |
| EnvironmentDataManager.StoreValueNoType | csbenchlab/environment_data_manager.py:156-158 | a missing or empty `ComponentType` raises `Exception("Component should have 'ComponentType' field")` |
| EnvironmentDataManager.StoreValueStandalone | csbenchlab/environment_data_manager.py:159-160 | a standalone child type raises `ValueError("Cannot save subcomponent as it is standalone.")` |
| EnvironmentDataManager.StoreValueWrites | csbenchlab/environment_data_manager.py:151-168 | a successful store, as written, had a dict with a string `Id` (`""` included) and an embedded type, returns `{Id, ComponentType, DestinationPath}` and writes the JSON of the body at the child file |
| EnvironmentDataManager.StoreItems | csbenchlab/environment_data_manager.py:133-136 | storing a list gives one back-reference per item |
| EnvironmentDataManager.StoreValueWellFormed | csbenchlab/environment_data_manager.py:164-167 | storing keeps the tree well formed |
| EnvironmentDataManager.StoreItemsWellFormed | csbenchlab/environment_data_manager.py:133-136 | storing a list keeps the tree well formed |
| EnvironmentDataManager.SaveLoopWellFormed | csbenchlab/environment_data_manager.py:128-139 | the save loop over the declared fields keeps the tree well formed |
| EnvironmentDataManager.SaveSubcomponentsEffect | csbenchlab/environment_data_manager.py:123-140 | a non-dict is returned as it is, and a dict stays a dict |
| EnvironmentDataManager.LoadValueErrors | csbenchlab/environment_data_manager.py:142-146 | loading a non-dict raises `AttributeError`; a missing or empty `Id` or `ComponentType` raises `Exception` |
| EnvironmentDataManager.LoadItems | csbenchlab/environment_data_manager.py:114-118 | loading a list gives one body per back-reference |
| EnvironmentDataManager.FillStep | csbenchlab/environment_data_manager.py:106-112 | a declared field absent from the document becomes `{}`, and an empty one is left as it is |
| EnvironmentDataManager.Fill | csbenchlab/environment_data_manager.py:102-121 | a non-dict is returned as it is, and a dict stays a dict |
| EnvironmentDataManager.ItemDocs | csbenchlab/environment_data_manager.py:33-38 | an entry that is not a folder, or a folder without the data file, contributes nothing |
| EnvironmentDataManager.LoadAllResult | csbenchlab/environment_data_manager.py:26-44 | a missing root gives `[]`; file mode gives the hydrated document; folder mode gathers the folders' documents, a list document contributing its elements |
| EnvironmentDataManager.FolderSaveComponent | csbenchlab/environment_data_manager.py:69-73 | a record without `Id` raises `ValueError` after the root is created |
| EnvironmentDataManager.ClearFolderEmpties | csbenchlab/environment_data_manager.py:54-59 | `save_all`'s clearing loop succeeds, leaves no entry in the root and leaves everything outside the root as it was |
| EnvironmentDataManager.ClearFolderFrom | csbenchlab/environment_data_manager.py:55-59 | the clearing loop removes exactly the listed entries, a folder with all it contains |
| EnvironmentDataManager.RemoveComponentEffect | csbenchlab/environment_data_manager.py:81-89 | a missing file or record folder is no error, and a non-string Id fails without a change |
| EnvironmentDataManager.RemoveComponentScope | csbenchlab/environment_data_manager.py:81-89 | in file mode the file is unlinked unless the root is a folder; in folder mode exactly the folder `self.path / component_id` names, as `pathlib` splits the id, goes with its contents and nothing else changes; that folder is the record's own for a plain id and the root itself for `.` |
| EnvironmentDataManager.RemoveDotClearsRoot | csbenchlab/environment_data_manager.py:87-89 | in folder mode `remove_component('.')` removes the root and every record in it, and nothing outside the root |
| EnvironmentDataManager.RecordPathPlain | csbenchlab/environment_data_manager.py:87 | `self.path / component_id` with a plain id (not empty, `.` or `..`, no `/`) is one child of the root |
| EnvironmentDataManager.RecordPathDot | csbenchlab/environment_data_manager.py:87 | `self.path / '.'` is the root itself |
| EnvironmentDataManager.RemoveKeepsSiblings | csbenchlab/environment_data_manager.py:87-89 | removing a record whose id is a plain name leaves every other record's folder as it was |
| EnvironmentDataManager.ModeCheck | csbenchlab/environment_data_manager.py:17-19 | construction fails exactly when the root is a file and a non-empty file name is given |
| EnvironmentDataManager.ComponentDataManager.constructor | csbenchlab/environment_data_manager.py:14-21 | the mode is fixed by whether the root is a file now, and folder mode defaults the file name to `component.json` |
| EnvironmentDataManager.NewComponentDataManager | csbenchlab/environment_data_manager.py:14-24 | construction fails exactly when `ModeCheck` does, with its error, and otherwise records the root, mode, file name and class |
| EnvironmentDataManager.ComponentDataManager.StoreValue | csbenchlab/environment_data_manager.py:151-168 | the disk and result are `StoreValueAsWritten` of the old disk, the store as written, which accepts an empty `Id`; the disk stays well formed |
| EnvironmentDataManager.ComponentDataManager.WriteBodyTo | csbenchlab/environment_data_manager.py:164-167 | the disk and result are `WriteBody` of the old disk, which stays well formed |
| EnvironmentDataManager.ComponentDataManager.SaveSubcomponents | csbenchlab/environment_data_manager.py:123-140 | the loop's disk and result are `SaveSubcomponentsEffect` of the old disk, which stays well formed |
| EnvironmentDataManager.ComponentDataManager.SaveName | csbenchlab/environment_data_manager.py:129-139 | one field's round of the loop is `SaveStep` |
| EnvironmentDataManager.ComponentDataManager.StoreEach | csbenchlab/environment_data_manager.py:133-136 | the loop's disk and result are `StoreItems` of the old disk, which stays well formed |
| EnvironmentDataManager.ComponentDataManager.StoreNext | csbenchlab/environment_data_manager.py:134-136 | one item's round of the loop advances `StoreItems` by that item |
| EnvironmentDataManager.ComponentDataManager.FillSubcomponents | csbenchlab/environment_data_manager.py:102-121 | the loop's result is `Fill` of the disk |
| EnvironmentDataManager.ComponentDataManager.LoadEach | csbenchlab/environment_data_manager.py:114-118 | the loop's result is `LoadItems` of the disk |
| EnvironmentDataManager.ComponentDataManager.LoadAll | csbenchlab/environment_data_manager.py:26-44 | the loop's result is `LoadAllResult` of the disk and the root's listing |
| EnvironmentDataManager.ComponentDataManager.SaveComponentInFolder | csbenchlab/environment_data_manager.py:69-79 | the disk and outcome are `FolderSaveComponent` of the old disk, which stays well formed |
| EnvironmentDataManager.ComponentDataManager.SaveFile | csbenchlab/environment_data_manager.py:47-50 | the disk and outcome are `FileModeSave` of the old disk, which stays well formed |
| EnvironmentDataManager.ComponentDataManager.SaveComponent | csbenchlab/environment_data_manager.py:64-79 | the disk and outcome are `SaveComponentEffect` of the old disk, which stays well formed |
| EnvironmentDataManager.ComponentDataManager.ClearRoot | csbenchlab/environment_data_manager.py:54-59 | the loop's disk and outcome are `ClearFolder` of the old disk, which stays well formed |
| EnvironmentDataManager.ComponentDataManager.SaveEachInFolder | csbenchlab/environment_data_manager.py:60-62 | the loop's disk and outcome are `SaveEach` of the old disk, which stays well formed |
| EnvironmentDataManager.ComponentDataManager.SaveAll | csbenchlab/environment_data_manager.py:46-62 | the disk and outcome are `SaveAllEffect` of the old disk, which stays well formed |
| EnvironmentDataManager.ComponentDataManager.RemoveComponent | csbenchlab/environment_data_manager.py:81-89 | the disk and outcome are `RemoveComponentEffect` of the old disk |
| EnvironmentDataManager.ManagerKey | csbenchlab/environment_data_manager.py:187-199 | an empty `ComponentType` is an unknown type; a resolved standalone type is the document's own type; an embedded one carries a non-empty parent Id and a standalone parent type, both from the document |
| EnvironmentDataManager.EnvironmentDataManager.constructor | csbenchlab/environment_data_manager.py:179-184 | the manager starts with its standalone managers and no embedded ones |
| EnvironmentDataManager.EnvironmentDataManager.GetOrCreate | csbenchlab/environment_data_manager.py:187-208 | errors leave the cache alone; a standalone type gets its manager; an embedded type gets the manager cached under the parent Id, or a new one rooted at `<parentRoot>/<parentId>/subcomponents/<dest>` which is then cached under the parent Id alone |
| EnvironmentDataManager.EnvironmentDataManager.AddComponent | csbenchlab/environment_data_manager.py:211-213 | the component is saved by the manager its type resolves to, and a resolution error changes nothing |
| EnvironmentDataManager.EnvironmentDataManager.RemoveComponent | csbenchlab/environment_data_manager.py:215-218 | the component's `Id` is removed by the manager its type resolves to, and a resolution error changes nothing |
| EnvironmentDataManager.EnvironmentDataManager.GetComponents | csbenchlab/environment_data_manager.py:220-224 | a standalone type loads everything its manager holds; any other value raises `ValueError` |
| EnvironmentDataManager.NewEnvironmentDataManager | csbenchlab/environment_data_manager.py:174-184 | an invalid environment path raises `ValueError`; otherwise there is one manager per standalone type, in the mode its folder has now |
| StoreRoundTrip.EmbeddedDest | csbenchlab/data_desc/component_data_desc.py:37-54 | an embedded type's destination is one non-empty folder name |
| StoreRoundTrip.RefFileLoad | csbenchlab/environment_data_manager.py:142-149 | loading a back-reference reads the JSON at the file it names |
| StoreRoundTrip.WriteBodyLoads | csbenchlab/environment_data_manager.py:164-168 | with a faithful JSON codec, the body written reads back as it was and the back-reference is returned |
| StoreRoundTrip.WriteBodyFrame | csbenchlab/environment_data_manager.py:164-167 | writing a body changes no other file |
| StoreRoundTrip.RefFileBackRef | csbenchlab/environment_data_manager.py:147-164 | the file the loader derives from a back-reference is the file the store wrote |
| StoreRoundTrip.StoreValueUnfold | csbenchlab/environment_data_manager.py:151-168 | for a body whose `Id` is not `""`, a successful store as written had a string `Id` and an embedded type, and is the write of the body under the child folder |
| StoreRoundTrip.StoreValueRestores | csbenchlab/environment_data_manager.py:142-168 | for a body whose `Id` is not `""`, after a store as written the back-reference loads back the stored body and keeps its `Id`, and no file other than the body's changes |
| StoreRoundTrip.StoreThenLoadValue | csbenchlab/environment_data_manager.py:142-168 | with the corrected store, which refuses an empty `Id`, `_load_value` of what the store returned gives back the stored item |
| StoreRoundTrip.StoreItemsRestores | csbenchlab/environment_data_manager.py:133-136 | for a list with distinct Ids, each a plain folder name and none of them `""`, every back-reference of the store as written loads back its own item, and only the named files change |
| StoreRoundTrip.StoreItemsRestored | csbenchlab/environment_data_manager.py:133-136 | for a list with distinct Ids, each a plain folder name and none of them `""`, later stores do not overwrite earlier bodies |
| StoreRoundTrip.StoreItemsFrame | csbenchlab/environment_data_manager.py:133-136 | for a list whose Ids are not `""`, storing it changes only the files its back-references name |
| StoreRoundTrip.LoadItemsRestores | csbenchlab/environment_data_manager.py:114-118 | loading the back-references of a list whose bodies are in place gives the list back |
| StoreRoundTrip.SaveStepRestores | csbenchlab/environment_data_manager.py:129-139 | for a field whose bodies have distinct Ids, each a plain folder name and none of them `""`, saving it leaves a value that loads back into the original, changes no other field and writes only below that field's child files |
| StoreRoundTrip.SaveLoopRestores | csbenchlab/environment_data_manager.py:123-140 | for declared fields whose bodies have distinct Ids, each a plain folder name and none of them `""`, saving them all leaves each restorable, changes no undeclared field and writes only the fields' child files |
| StoreRoundTrip.FillStepRestores | csbenchlab/environment_data_manager.py:106-120 | filling a saved field gives back its original value, or `{}` for an absent one |
| StoreRoundTrip.FillLoopRestores | csbenchlab/environment_data_manager.py:102-121 | filling restores every declared field and leaves the others as the document has them |
| StoreRoundTrip.FolderSaveUnfold | csbenchlab/environment_data_manager.py:69-79 | a successful `save_component` creates the record's folder, saves its subcomponents and writes the substituted document to `<root>/<Id>/<data_file>` |
| StoreRoundTrip.SaveComponentRoundTrip | csbenchlab/environment_data_manager.py:64-168 | for a record with a non-empty `Id` whose embedded bodies have distinct Ids, each a plain folder name and none of them `""`, loading the record `save_component` wrote gives back every field of the original, with a declared but absent field as `{}` |
| StoreRoundTrip.WriteBodyFresh | csbenchlab/environment_data_manager.py:164-167 | in a tree holding only the folders above it, writing a body always succeeds |
| StoreRoundTrip.AsWrittenIsWrite | csbenchlab/environment_data_manager.py:151-168 | the store as written, past its checks, is the write of the body under the child folder |
| StoreRoundTrip.EmptyIdStored | csbenchlab/environment_data_manager.py:151-168 | the store as written accepts an embedded item whose `Id` is `""` |
| StoreRoundTrip.EmptyIdNotRestored | csbenchlab/environment_data_manager.py:142-168 | the back-reference of that item does not load back: it raises `Exception` |
| EnvFileManager.NameText | env_file_manager.py:43-48 | the f-string rendering of `item.get('Name')`: a string renders as itself and a missing name as `None` |
| EnvFileManager.RecordFileName | env_file_manager.py:43-49 | a record's file name is `<Name>.json`, `None.json` without a name; a non-dict item fails (no `get`) |
| EnvFileManager.JsonNames | env_file_manager.py:24-39 | `glob("*.json")` yields exactly the children of the folder whose names end in `.json` |
| EnvFileManager.Enlist | env_file_manager.py:77-84 | with `enlist` a non-list value is wrapped in a one-element list; lists and non-enlisting managers pass through |
| EnvFileManager.LoadDoc | env_file_manager.py:72-79 | a missing file raises `FileNotFoundError`; otherwise the parsed document, enlisted, or the parser's error |
| EnvFileManager.FolderDocsStep | env_file_manager.py:24-29 | one step of the folder load: a list document is spliced in, any other document appended, an error stops the load |
| EnvFileManager.FolderDocsSingles | env_file_manager.py:22-30 | a folder of single-record files loads as exactly those records, in listing order |
| EnvFileManager.UnionResult | env_file_manager.py:46-51 | adding a written name to the set so far keeps errors and unions names |
| EnvFileManager.UnionResultAssoc | env_file_manager.py:40-46 | accumulating names in two steps equals accumulating their union |
| EnvFileManager.WriteItemsStep | env_file_manager.py:42-46 | the per-item write loop unfolds one item at a time |
| EnvFileManager.WriteConsFail | env_file_manager.py:45 | a failed write of one record stops the loop with that error |
| EnvFileManager.WriteConsOk | env_file_manager.py:43-46 | a successful write of one record adds its file name to the written set and continues on the new disk |
| EnvFileManager.WriteItemsFrame | env_file_manager.py:42-46 | writing records touches only the files it names, and each named file exists afterwards |
| EnvFileManager.WriteItemsNames | env_file_manager.py:39-46 | after the writes the `.json` listing is the old listing plus the written names |
| EnvFileManager.WriteItemsWritten | env_file_manager.py:42-46 | a name is written exactly when some record renders to it |
| EnvFileManager.WriteItemsLast | env_file_manager.py:42-46 | when two records share a name, the file holds the last of them |
| EnvFileManager.ItemsOf | env_file_manager.py:41-51 | a list is saved item by item; any other value as a single record |
| EnvFileManager.FolderSavedNames | env_file_manager.py:37-54 | after a folder save of records whose names hold no `/`, the folder's `.json` files are exactly the names of the saved records; stale files are gone |
| EnvFileManager.FolderSavedLastWins | env_file_manager.py:42-54 | after a folder save of records whose names hold no `/`, each file holds the last record with that name |
| EnvFileManager.ComponentDataManager.Load | env_file_manager.py:18-30 | `load` reads one file, or concatenates the records of every `.json` file of the folder; a missing folder loads as `[]` |
| EnvFileManager.ComponentDataManager.Save | env_file_manager.py:32-54 | `save` writes one file, or creates the folder, writes one file per record and unlinks the stale ones |
| EnvFileManager.WriteAll | env_file_manager.py:42-46 | the per-record write loop leaves the disk and the written names of its specification |
| EnvFileManager.RemoveStale | env_file_manager.py:53-54 | unlinking the stale names removes exactly those files, and fails if one of them is not a file |
| EnvFileManager.NewManager | env_file_manager.py:11-16 | a folder manager never enlists; otherwise `enlist` is kept |
| EnvFileManager.ManagerTable | env_file_manager.py:87-93 | the five component managers: three enlisted single files under `parts`, the controllers folder, and the unenlisted `config.json` |
| EnvFileManager.Others | env_file_manager.py:62-69 | filtering an empty list gives an empty list |
| EnvFileManager.OthersSpec | env_file_manager.py:62-69 | the filter keeps exactly the records whose `Id` differs, and fails with `KeyError` when a record has no `Id` |
| EnvFileManager.OthersConcat | env_file_manager.py:62-69 | the filter distributes over concatenation |
| EnvFileManager.GetAttr | env_file_manager.py:62 | attribute access on a parsed JSON dict raises `AttributeError` |
| EnvFileManager.AddFilterAsWritten | env_file_manager.py:62 | as written, `component.Id` on a dict component raises `AttributeError` whenever the list is not empty |
| EnvFileManager.AddAsWritten | env_file_manager.py:56-64 | as written, a list manager refuses to add once the loaded list has a record with an `Id`, raising `AttributeError('Id')` without writing; on an empty list it saves the one-element list of the new record |
| EnvFileManager.FileSaveLoad | env_file_manager.py:18-35 | saving a list to a single-file manager and loading it returns the same list |
| EnvFileManager.AddThenLoad | env_file_manager.py:56-64 | with the filter corrected to `component['Id']`, after adding the loaded list is the old records with other ids followed by the new component |
| EnvFileManager.RemoveThenLoad | env_file_manager.py:67-70 | after removing, the loaded list is exactly the old records with other ids |
| EnvFileManager.AddComponentTo | env_file_manager.py:56-64 | `add_component` of one manager, as written, leaves the disk and outcome of `AddSpec` with the `component.Id` filter |
| EnvFileManager.RemoveComponentFrom | env_file_manager.py:67-70 | `remove_component` of one manager leaves the disk and outcome of its specification |
| EnvFileManager.LoadEnvironmentData | env_file_manager.py:114-121 | the loaded environment holds lists of systems, controllers, scenarios and metrics |
| EnvFileManager.EnvJobs | env_file_manager.py:123-128 | saving an environment is five saves, one per manager |
| EnvFileManager.SaveChainAt | env_file_manager.py:123-128 | the saves run in order and the first failure stops the rest |
| EnvFileManager.SaveChainLast | env_file_manager.py:128 | the last save's result is the result of the chain |
| EnvFileManager.EnvFileManager.constructor | env_file_manager.py:95-99 | the manager keeps the environment path |
| EnvFileManager.EnvFileManager.AddComponent | env_file_manager.py:102-106 | an unknown type raises `ValueError` and changes nothing; a known one runs its manager's `add_component` as written |
| EnvFileManager.EnvFileManager.RemoveComponent | env_file_manager.py:108-112 | an unknown type raises `ValueError`; a component without `Id` raises `KeyError`; otherwise it delegates |
| EnvFileManager.EnvFileManager.SaveEnvironmentData | env_file_manager.py:123-128 | the disk and outcome are those of the five saves in order |
| EnvFileManager.NewEnvFileManager | env_file_manager.py:95-135 | construction fails with `ValueError` exactly when the path is not a folder holding `<name>.cse` |
| Dataclasses.NamesOf | csbenchlab/env_model.py:22-23 | the declared field names, one per declaration and in declaration order |
| Dataclasses.DeclOf | csbenchlab/env_model.py:33-36 | a field's declaration is found exactly when the name is declared |
| Dataclasses.Flat | csbenchlab/env_model.py:33-36 | the record of declarations that carry their own defaults: each field name paired with its default or its factory's product |
| Dataclasses.MergeDisjoint | csbenchlab/env_model.py:89-97 | a subclass that declares only new fields has its base's fields followed by its own |
| Dataclasses.RedeclareFresh | csbenchlab/env_model.py:89-92 | declaring a new field appends it |
| Dataclasses.RedeclareSame | env_model.py:63-71 | redeclaring a field that is already declared keeps its place in the field order |
| Dataclasses.MergeRedeclareInherited | env_model.py:68-71 | new fields followed by a redeclared inherited field: the new fields are appended, the inherited one stays where it was |
| Dataclasses.FieldsChain | csbenchlab/env_model.py:22 | with no field redeclared, `__dataclass_fields__` is the chain of declarations, base first |
| Dataclasses.AttrChain | csbenchlab/env_model.py:24-25 | with no field redeclared, a field is a class attribute exactly when it has a plain default somewhere along the chain |
| Dataclasses.AttrInherit | env_model.py:68-71 | a class declaring only factory fields has the class attributes of its base |
| Dataclasses.AsDictFlat | csbenchlab/env_model.py:19-39 | `as_dict` of a class with no redeclared field is the flat record of its declarations |
| Dataclasses.AsDictOfRoot | csbenchlab/env_model.py:19-39 | `as_dict` of a root record class with distinct fields is the record of its own defaults |
| Dataclasses.AsDictOfChild | csbenchlab/env_model.py:19-89 | `as_dict` of a subclass with distinct fields is the base's record followed by its own |
| Dataclasses.AsDictOfFactoryChild | env_model.py:14-71 | `as_dict` of a subclass declaring only factory fields is the flat record of its field order |
| Dataclasses.FactoryChildField | env_model.py:19-33 | each field of such a subclass takes its own default |
| Dataclasses.AsDictPointwise | csbenchlab/env_model.py:20-39 | when each field takes its own default, `as_dict` is the flat record |
| EnvModel.CreateCallbacks | csbenchlab/env_model.py:8-14 | the four callback hooks, in order, each the empty string |
| EnvModel.MetadataDefaults | csbenchlab/env_model.py:44-57 | a new environment's metadata record: name `New Environment`, type `metadata`, version `0.0.1` and empty authors and tags |
| EnvModel.SystemDefaults | csbenchlab/env_model.py:61-92 | a new system: the fresh Id, empty info fields, type `system`, subcomponents `["Disturbance"]` and an empty disturbance |
| EnvModel.ControllerDefaults | csbenchlab/env_model.py:61-104 | a new controller: not composable, horizon 0, type `controller`, no subcontrollers and subcomponents `["Subcontrollers"]` |
| EnvModel.ControllerComponentDefaults | csbenchlab/env_model.py:72-111 | a new subcontroller: the subcomponent info fields, an empty mux and type `subcontroller` |
| EnvModel.ScenarioDefaults | csbenchlab/env_model.py:113-123 | a new scenario: the fresh Id, type `scenario`, simulation time 0.0 and subcomponents `["Disturbance"]` |
| EnvModel.MetricDefaults | csbenchlab/env_model.py:125-131 | a new metric: the fresh Id, empty name and description and type `metric` |
| EnvModel.DisturbanceDefaults | csbenchlab/env_model.py:133-136 | a new disturbance: the subcomponent info fields and type `disturbance` |
| EnvModel.EstimatorDefaults | csbenchlab/env_model.py:138-141 | a new estimator: the subcomponent info fields and type `estimator` |
| EnvModel.MetadataHasNoId | csbenchlab/env_model.py:44-57 | the environment metadata record has no `Id` field |
| EnvModel.MetricHasNoSubcomponents | csbenchlab/env_model.py:125-131 | a metric record has no `Subcomponents` field |
| LegacyEnvModel.MetadataDefaults | env_model.py:39-49 | the earlier metadata record: name, author, version `0.0.1`, license, an empty tag list and dates |
| LegacyEnvModel.SystemFields | env_model.py:53-71 | the redeclared `Callbacks` keeps its inherited place and the system's new fields follow |
| LegacyEnvModel.SystemDefaults | env_model.py:53-71 | a system record: the inherited info with fresh callbacks, then empty disturbance and estimator |
| LegacyEnvModel.ControllerDefaults | env_model.py:53-82 | a controller record: the inherited info, then its composition, mux, components, disturbance and estimator defaults |
| LegacyEnvModel.ControllerComponentDefaults | env_model.py:85-97 | a controller component record with its own import-time Id, fresh callbacks and an empty mux |
| LegacyEnvModel.ScenarioDefaults | env_model.py:99-108 | a scenario record with its own import-time Id and empty condition, reference and parameter file |
| LegacyEnvModel.MetricDefaults | env_model.py:110-117 | a metric record with its own import-time Id and an empty callback |
| LegacyEnvModel.DisturbanceDefaults | env_model.py:120-123 | a disturbance record is exactly the inherited info |
| LegacyEnvModel.EstimatorDefaults | env_model.py:125-128 | an estimator record is exactly the inherited info |
| LegacyEnvModel.SharedId | env_model.py:55-127 | the Id is drawn once at import: every system, controller, disturbance and estimator reports the same Id, whatever fresh id would be drawn |
| LegacyEnvModel.NoTypeFields | env_model.py:39-128 | no record of the earlier layout declares a component type or a subcomponent list |
| EnvEditor.CandidateInjective | csb_qt/csb_pyqt_env_manager.py:271-274 | distinct counters give distinct candidates `"<name> (i)"` |
| EnvEditor.CandidatesCard | csb_qt/csb_pyqt_env_manager.py:270-274 | the first `i` numbered candidates are `i` distinct names |
| EnvEditor.Pigeon | csb_qt/csb_pyqt_env_manager.py:272-274 | at most as many candidates can be taken as there are existing names, so the counting loop ends |
| EnvEditor.FirstFree | csb_qt/csb_pyqt_env_manager.py:270-275 | the counting loop's result is free, and every candidate it passed on the way is taken |
| EnvEditor.UniqueName | csb_qt/csb_pyqt_env_manager.py:264-275 | the result is never an existing name; an unused name is kept; otherwise it is `"<name> (k)"` for the least free `k >= 1` |
| EnvEditor.ExistingNames | csb_qt/csb_pyqt_env_manager.py:267 | the names read from every object in order, or the error of the first object without a `Name` |
| EnvEditor.Objects | csb_qt/csb_pyqt_env_manager.py:265-266 | a list is its items; a non-empty non-list is one object; an empty placeholder holds none (corrected) |
| EnvEditor.PlaceholderNamingFails | csb_qt/csb_pyqt_env_manager.py:265-267 | as written, naming against an empty placeholder dict raises `KeyError('Name')` |
| EnvEditor.PlaceholderNaming | csb_qt/csb_pyqt_env_manager.py:264-269 | corrected, an empty placeholder leaves the proposed name unchanged |
| EnvEditor.MakeNameUnique | csb_qt/csb_pyqt_env_manager.py:264-275 | the counting loop computes `make_name_unique` as written: the unique name among the names of the objects, an empty placeholder dict counting as one object, or the error of reading a name |
| EnvEditor.NextCandidate | csb_qt/csb_pyqt_env_manager.py:272-274 | a taken candidate moves the loop to the next counter, still within the bound |
| EnvEditor.FreeCandidate | csb_qt/csb_pyqt_env_manager.py:272-275 | the loop stops at the least free candidate |
| EnvEditor.FirstFreeAt | csb_qt/csb_pyqt_env_manager.py:270-275 | searching from any earlier counter reaches the same first free candidate |
| EnvEditor.AddMissingField | csb_qt/csb_pyqt_env_manager.py:111 | as written and with corrected naming, a field missing from the parent raises `KeyError` at the read, before the later presence check |
| EnvEditor.AddEffect | csb_qt/csb_pyqt_env_manager.py:108-126 | as written and with corrected naming: the new item is the blank record with a unique `New <Type>` name and the parent's id and type; it is appended to a list field or replaces any other field; no other key of the parent changes |
| EnvEditor.AddNameUnique | csb_qt/csb_pyqt_env_manager.py:112 | as written and with corrected naming, the new item's name differs from that of every object the naming looked at |
| EnvEditor.AddToPlaceholder | csb_qt/csb_pyqt_env_manager.py:111-122 | corrected naming: adding to an empty placeholder names the item `New <Type>` and puts it in the field |
| EnvEditor.AddToPlaceholderFails | csb_qt/csb_pyqt_env_manager.py:108-113 | as written, adding to an empty placeholder field raises `KeyError('Name')` |
| EnvEditor.ItemAt | csb_qt/csb_pyqt_env_manager.py:161 | `modified[i]` succeeds exactly on a list with that index |
| EnvEditor.DuplicateItemRewired | csb_qt/csb_pyqt_env_manager.py:150-152 | `duplicate_item` succeeds exactly on a dict item and a copy with an `Id`, and gives the item its fresh id and the copy's id as parent |
| EnvEditor.DuplicateItemEffect | csb_qt/csb_pyqt_env_manager.py:150-156 | besides the two ids nothing of the item changes; the parameter file is copied from the item and the side files from the original component |
| EnvEditor.FilesFromAppend | csb_qt/csb_pyqt_env_manager.py:155-156 | side-file copies taken from one source stay so when concatenated |
| EnvEditor.ItemsLoopShape | csb_qt/csb_pyqt_env_manager.py:158-161 | the loop over a list field keeps the copy's list length and the items it does not visit |
| EnvEditor.ItemsLoopIds | csb_qt/csb_pyqt_env_manager.py:159-161 | every visited item gets the next fresh id and the copy's id as parent |
| EnvEditor.ItemsLoopEnd | csb_qt/csb_pyqt_env_manager.py:160 | the loop stops after the last item |
| EnvEditor.ItemsLoopNext | csb_qt/csb_pyqt_env_manager.py:160-161 | after a successful copy of item `i` the loop goes on with that copy in place |
| EnvEditor.ItemsLoopIdsStep | csb_qt/csb_pyqt_env_manager.py:160-161 | the fresh-id property at `i` follows from the item at `i` and the property at `i + 1` |
| EnvEditor.RewiredFrom | csb_qt/csb_pyqt_env_manager.py:160-161 | the rewired items from `i` on, given item `i` and those after it |
| EnvEditor.ItemsLoopFiles | csb_qt/csb_pyqt_env_manager.py:155-161 | every side-file copy of the loop is taken from the original component |
| EnvEditor.DuplicateSubEmpty | csb_qt/csb_pyqt_env_manager.py:144-146 | an empty field leaves the copy as it is and copies nothing |
| EnvEditor.DuplicateSubList | csb_qt/csb_pyqt_env_manager.py:158-161 | a list field: item `j` of the copy gets id `ids(k + j)` and the copy's id as parent; nothing else of the copy changes |
| EnvEditor.DuplicateSubScalar | csb_qt/csb_pyqt_env_manager.py:162-163 | any other non-empty field is one item with the next fresh id and the copy's id as parent |
| EnvEditor.FieldDoneFrame | csb_qt/csb_pyqt_env_manager.py:175-176 | a field stays duplicated while later fields are processed |
| EnvEditor.RewiredLinked | csb_qt/csb_pyqt_env_manager.py:151-152 | a rewired item is linked to the copy |
| EnvEditor.DuplicateSubDone | csb_qt/csb_pyqt_env_manager.py:143-164 | duplicating one field finishes that field and changes no other key of the copy |
| EnvEditor.SubsLoopEffect | csb_qt/csb_pyqt_env_manager.py:175-176 | the loop over the subcomponent names finishes every named field and leaves every other key |
| EnvEditor.SubsLoopFiles | csb_qt/csb_pyqt_env_manager.py:175-176 | the loop's side-file copies are all taken from the original component |
| EnvEditor.DuplicateSubFiles | csb_qt/csb_pyqt_env_manager.py:155-156 | a subcomponent's side files are copied from the parent's data, not the child's |
| EnvEditor.DuplicateHeadEffect | csb_qt/csb_pyqt_env_manager.py:170-173 | the copy has the fresh id and a name no item of the container has, and otherwise equals the original |
| EnvEditor.SubcomponentNamesOfCopy | csb_qt/csb_pyqt_env_manager.py:171-175 | the copy loops over the original's subcomponent names |
| EnvEditor.DuplicateAppends | csb_qt/csb_pyqt_env_manager.py:166-178 | as written and corrected, the container afterwards is the old one with the copy appended; the copy has the fresh id and an unused name |
| EnvEditor.DuplicateLinks | csb_qt/csb_pyqt_env_manager.py:175-176 | as written and corrected, every named subcomponent field of the copy is duplicated and linked to the copy's id |
| EnvEditor.DuplicateFilesFromOriginal | csb_qt/csb_pyqt_env_manager.py:153-184 | as written and corrected, all side files are copied from the original component |
| EnvEditor.DuplicateWithoutSubcomponentsFails | csb_qt/csb_pyqt_env_manager.py:175 | as written, a component without `Subcomponents` raises `KeyError` and nothing is appended |
| EnvEditor.DuplicateWithoutSubcomponents | csb_qt/csb_pyqt_env_manager.py:166-184 | corrected, it is duplicated with no subcomponent to copy, only its own files |
| EnvEditor.FreshMetricNamed | csb_qt/csb_pyqt_env_manager.py:131-133 | a freshly added metric has a `Name` and no `Subcomponents` |
| EnvEditor.MetricEntriesNamed | csb_qt/csb_pyqt_env_manager.py:173 | the default metric record reads its empty `Name` |
| EnvEditor.SingleNamed | csb_qt/csb_pyqt_env_manager.py:267 | a single object with a `Name` gives its list of names |
| EnvEditor.DuplicateMetricFails | csb_qt/csb_pyqt_env_manager.py:175 | as written, duplicating a freshly added metric raises `KeyError('Subcomponents')` |
| EnvEditor.DuplicateMetric | csb_qt/csb_pyqt_env_manager.py:166-178 | corrected, a freshly added metric is duplicated and the copy appended |
| EnvEditor.RemoveFromList | csb_qt/csb_pyqt_env_manager.py:202-218 | a list field loses exactly element `idx`, which is returned and removed from the store; nothing else changes |
| EnvEditor.RemoveNegativeIndex | csb_qt/csb_pyqt_env_manager.py:204-205 | a negative index on a list field raises before anything changes |
| EnvEditor.RemoveScalar | csb_qt/csb_pyqt_env_manager.py:208-211 | any other field is reset to `{}`, even when reading the removed object's name then fails |
| EnvEditor.RemoveDeclined | csb_qt/csb_pyqt_env_manager.py:193-200 | declining the confirmation changes nothing |
| EnvEditor.AddThenRemoveList | csb_qt/csb_pyqt_env_manager.py:108-218 | as written and with corrected naming, removing the item just added to a list field restores the parent |
| EnvEditor.AddThenRemovePlaceholder | csb_qt/csb_pyqt_env_manager.py:108-218 | removing what was added to an empty placeholder restores the parent |
| EnvEditor.RecordEffect | csb_qt/csb_pyqt_env_manager.py:383-397 | recording sets this widget's flag and no other, and stars the item only on a clean widget |
| EnvEditor.RecordTwice | csb_qt/csb_pyqt_env_manager.py:387-397 | recording twice stars the item once |
| EnvEditor.SaveClean | csb_qt/csb_pyqt_env_manager.py:414-420 | saving a clean widget changes nothing |
| EnvEditor.SaveAfterRecord | csb_qt/csb_pyqt_env_manager.py:383-437 | a change recorded on a clean widget and then saved leaves its flag clear and its text as before |
| EnvEditor.SaveLeavesOthers | csb_qt/csb_pyqt_env_manager.py:397-443 | after a save there are unsaved changes exactly when another widget has them; after a record there always are |
| EnvEditor.EnvEditor.constructor | csb_qt/csb_pyqt_env_manager.py:52 | a new editor has the given component lists and no flags |
| EnvEditor.EnvEditor.SetContainer | csb_qt/csb_pyqt_env_manager.py:485-496 | replacing one component list leaves the others and the flags |
| EnvEditor.EnvEditor.MarkChanged | csb_qt/csb_pyqt_env_manager.py:397 | the widget's flag is set |
| EnvEditor.EnvEditor.RecordWidgetChange | csb_qt/csb_pyqt_env_manager.py:383-397 | flags and item text become those of `Record` |
| EnvEditor.EnvEditor.OnWidgetSave | csb_qt/csb_pyqt_env_manager.py:414-437 | flags and item text become those of `Save` |
| EnvEditor.EnvEditor.HasUnsavedChanges | csb_qt/csb_pyqt_env_manager.py:439-443 | the scan returns true exactly when some flag is set |
| EnvEditor.EnvEditor.AddSubcomponent | csb_qt/csb_pyqt_env_manager.py:108-126 | as written: on success the parent in its list is replaced by the updated one and its widget is flagged; on failure, such as an empty placeholder field, nothing changes |
| EnvEditor.EnvEditor.DuplicateSubcomponent | csb_qt/csb_pyqt_env_manager.py:143-164 | computes the store calls, the next fresh-id index and the copy of its specification |
| EnvEditor.EnvEditor.DuplicateItems | csb_qt/csb_pyqt_env_manager.py:159-161 | the loop over a list field computes the result of its specification |
| EnvEditor.EnvEditor.DuplicateNext | csb_qt/csb_pyqt_env_manager.py:160-161 | one step of that loop |
| EnvEditor.EnvEditor.DuplicateComponent | csb_qt/csb_pyqt_env_manager.py:166-188 | as written: on success the container becomes the old one plus the copy and the copy's widget is flagged; on failure, such as a component without `Subcomponents`, nothing changes |
| EnvEditor.EnvEditor.RemoveSubcomponent | csb_qt/csb_pyqt_env_manager.py:190-218 | the parent in its list becomes the one of the specification, with its store calls and result; flags are unchanged |
| EnvIterators.Append | csbenchlab/env_iterators.py:5-7 | chaining two generators: a failed first one stops the chain; otherwise the items concatenate |
| EnvIterators.AppendAssoc | csbenchlab/env_iterators.py:5-7 | chaining is associative |
| EnvIterators.AppendDone | csbenchlab/env_iterators.py:5-7 | the empty generator is neutral for chaining |
| EnvIterators.ComponentsOrder | csbenchlab/env_iterators.py:4-7 | the components come systems first, then controllers, scenarios and metrics, each list in order |
| EnvIterators.ComponentsStopAtBadAttr | csbenchlab/env_iterators.py:6 | a non-iterable attribute stops the iteration with its error after the earlier lists' items |
| EnvIterators.FieldValue | csbenchlab/env_iterators.py:15 | `c[sc_field]` for a string field name |
| EnvIterators.FieldItems | csbenchlab/env_iterators.py:16-21 | a list field yields its items; any other field yields itself exactly when it is truthy |
| EnvIterators.ExpandConcat | csbenchlab/env_iterators.py:10-21 | expanding a concatenation chains the expansions |
| EnvIterators.ComponentThenSubcomponents | csbenchlab/env_iterators.py:11-21 | each component is yielded directly before its subcomponents |
| EnvIterators.NoSubcomponentsKey | csbenchlab/env_iterators.py:13 | a component without `Subcomponents` yields no subcomponent |
| EnvIterators.MissingFieldRaises | csbenchlab/env_iterators.py:14-15 | a named field missing from the component raises `KeyError` |
| EnvIterators.MissingSubcomponentRaises | csbenchlab/env_iterators.py:13-15 | a component naming a missing field stops the iteration with `KeyError` |
| EnvIterators.OneField | csbenchlab/env_iterators.py:14-21 | with one named field the subcomponents are that field's items |
| EnvIterators.PlaceholderInListOnly | csbenchlab/env_iterators.py:16-21 | an empty placeholder in a list is yielded; a bare empty placeholder is not |
| EnvIterators.OneLevelOnly | csbenchlab/env_iterators.py:10-21 | a subcomponent's own subcomponents are not yielded |
| EnvironmentData.Qualifying | csbenchlab/environment_data.py:8-14 | the entries read are exactly the folders holding `controller.json` |
| EnvironmentData.EntryDoc | csbenchlab/environment_data.py:9-14 | other entries are skipped |
| EnvironmentData.DocsStep | csbenchlab/environment_data.py:8-17 | the loop reads one entry at a time and stops at the first parse error |
| EnvironmentData.LoadEnvControllers | csbenchlab/environment_data.py:5-18 | the loop returns the result of its specification |
| EnvironmentData.DocsMeaning | csbenchlab/environment_data.py:8-18 | the loop succeeds exactly when every qualifying document parses, and then returns them in listing order |
| EnvironmentData.LoadedControllers | csbenchlab/environment_data.py:5-18 | on an existing controllers folder, the controllers are exactly the parsed `controller.json` documents of its folders, in order |
| EnvironmentData.QualifyingChildren | csbenchlab/environment_data.py:8-14 | a child qualifies exactly when it is a folder holding `controller.json` |
| EnvironmentData.FolderNameIgnored | csbenchlab/environment_data.py:11 | the folder name is read but not used: a document whose `Id` differs from it is still returned |
| EnvironmentData.MissingFolderRaises | csbenchlab/environment_data.py:7-8 | a missing controllers folder raises `FileNotFoundError` |
| EnvironmentUtils.DotPrefixKeeps | csbenchlab/environment_utils.py:6-7 | prefixing a relative path with `.` names the same place and keeps its stem |
| EnvironmentUtils.IsEnvPathMarker | csbenchlab/environment_utils.py:4-9 | a path is an environment exactly when `<path>/<stem>.cse` is a file |
| EnvironmentUtils.MarkerImpliesFolder | csbenchlab/environment_utils.py:9 | on a well-formed tree an environment path is a folder |
| EnvironmentUtils.TwoNames | csbenchlab/environment_utils.py:4-9 | for `a/n` the marker sought is `a/n/<stem of n>.cse` |
| EnvironmentUtils.DottedFolderMarker | csbenchlab/environment_utils.py:8 | a folder name with a suffix loses it: `a/base.ext` needs `base.cse`, not `base.ext.cse` |
| EnvironmentHelpers.InValue | csbenchlab/backend/environment_helpers.py:24 | Python's `in`: list membership, substring of a string (a non-string needle raises), key of a dict |
| EnvironmentHelpers.FindById | csbenchlab/backend/environment_helpers.py:15 | `next(...)` finds a system with that `Id`, or none when every system has a different `Id` |
| EnvironmentHelpers.FindByIdFirst | csbenchlab/backend/environment_helpers.py:15 | the first system with that `Id` is the one found |
| EnvironmentHelpers.SelectSystems | csbenchlab/backend/environment_helpers.py:14-20 | a given instance selects exactly the system with that `Id` or raises `ValueError`; without one, more than one system raises `ValueError` and otherwise the systems are kept |
| EnvironmentHelpers.Ids | csbenchlab/backend/environment_helpers.py:22-23 | the default filter is every controller's `Id`; a controller without `Id` raises |
| EnvironmentHelpers.KeepListed | csbenchlab/backend/environment_helpers.py:24 | the kept controllers are, in order, exactly those whose `Id` is in the filter |
| EnvironmentHelpers.SubseqTrans | csbenchlab/backend/environment_helpers.py:24-25 | two filters in a row keep an order-preserving selection |
| EnvironmentHelpers.KeepListedAll | csbenchlab/backend/environment_helpers.py:22-24 | a filter listing every controller keeps them all |
| EnvironmentHelpers.KeepPython | csbenchlab/backend/environment_helpers.py:25 | the Python controllers, in order; a controller without `PluginImplementation` raises; the length drops exactly when one is not Python |
| EnvironmentHelpers.NonPositive | csbenchlab/backend/environment_helpers.py:32 | the `Ts <= 0` comparison on integers and floats |
| EnvironmentHelpers.CheckTs | csbenchlab/backend/environment_helpers.py:32-33 | the check passes exactly when `Ts` is present and positive; a non-positive `Ts` raises `ValueError` |
| EnvironmentHelpers.ControllerFilter | csbenchlab/backend/environment_helpers.py:22-23 | given ids are used as they are; missing ids list every controller |
| EnvironmentHelpers.SelectListed | csbenchlab/backend/environment_helpers.py:24-28 | the selected controllers are the listed Python ones, and the warning is issued exactly when a listed controller is not Python |
| EnvironmentHelpers.SelectControllers | csbenchlab/backend/environment_helpers.py:22-29 | the controller selection of the loaded data, or the error of iterating it |
| EnvironmentHelpers.NoIdsKeepsPython | csbenchlab/backend/environment_helpers.py:22-25 | without ids every Python controller is kept |
| EnvironmentHelpers.SubstringFilter | csbenchlab/backend/environment_helpers.py:24 | a string of ids keeps a controller exactly when its `Id` is a substring of it |
| EnvironmentHelpers.FilterData | csbenchlab/backend/environment_helpers.py:14-33 | on success the data holds the selected systems and controllers, the environment path, and a valid `Ts` |
| EnvironmentHelpers.NonPositiveTsRejected | csbenchlab/backend/environment_helpers.py:32-33 | a non-positive `Ts` raises `ValueError` after the selections |
| EnvironmentHelpers.LoadControlEnvironmentParamsAndData | csbenchlab/backend/environment_helpers.py:9-37 | loading errors propagate; on success the data are the filtered data and the parameters their evaluation |
| EnvironmentHelpers.GetEnvName | csbenchlab/backend/environment_helpers.py:109-110 | the environment name is a single path component |
| EnvironmentHelpers.MarkerPath | csbenchlab/backend/environment_helpers.py:92-94 | the marker sought is `<path>/<stem>.cse` |
| EnvironmentHelpers.ValidAgainstEnvPath | csbenchlab/backend/environment_helpers.py:83-94 | every `is_env_path` environment is a valid environment path, and on a valid one both checks look for the same marker |
| EnvironmentHelpers.MakeNewDirs | csbenchlab/backend/environment_helpers.py:65-66 | `os.makedirs` refuses an existing path with `FileExistsError` |
| EnvironmentHelpers.NewConfig | csbenchlab/backend/environment_helpers.py:70-75 | the new configuration is a JSON document whose `Ts` is `0.0` |
| EnvironmentHelpers.NewConfigRejected | csbenchlab/backend/environment_helpers.py:32-74 | the `Ts` of a new environment fails the sampling-time check until it is edited |
| EnvironmentHelpers.StepsLayout | csbenchlab/backend/environment_helpers.py:62-77 | the creation steps add the environment folder, its inner folder, `parts`, the empty marker and `config.json`, and nothing else |
| EnvironmentHelpers.FolderSteps | csbenchlab/backend/environment_helpers.py:62-66 | the three `makedirs` calls succeed on a fresh path |
| EnvironmentHelpers.FileSteps | csbenchlab/backend/environment_helpers.py:67-77 | the two files are written into the new folder and are new |
| EnvironmentHelpers.CreateExisting | csbenchlab/backend/environment_helpers.py:58-60 | an existing path raises `ValueError` before anything is created |
| EnvironmentHelpers.CreateLayout | csbenchlab/backend/environment_helpers.py:58-79 | on a fresh path the tree afterwards is the old one plus exactly the environment's folders and files |
| EnvironmentHelpers.AddChild | csbenchlab/backend/environment_helpers.py:62-77 | adding an entry inside a folder keeps the tree well formed |
| EnvironmentHelpers.ChildrenDistinct | csbenchlab/backend/environment_helpers.py:65-76 | two differently named entries of one folder are different paths |
| EnvironmentHelpers.PlainJoin | csbenchlab/backend/environment_helpers.py:58 | `os.path.join` with a plain name appends one component |
| EnvironmentHelpers.NothingInside | csbenchlab/backend/environment_helpers.py:59-62 | a path that does not exist has nothing inside it |
| EnvironmentHelpers.StemOfExtension | csbenchlab/backend/environment_helpers.py:92 | `Path.stem` drops the last suffix |
| EnvironmentHelpers.DottedNames | csbenchlab/backend/environment_helpers.py:63-77 | the names created for a dotted environment name are plain and do not collide |
| EnvironmentHelpers.DottedNameNotRecognised | csbenchlab/backend/environment_helpers.py:67-94 | as written, an environment created with a dotted name is not a valid environment path |
| EnvironmentHelpers.AsWrittenLayout | csbenchlab/backend/environment_helpers.py:58-79 | as written, a dotted name gets the marker `<name>.cse` |
| EnvironmentHelpers.LookedForMarker | csbenchlab/backend/environment_helpers.py:92-94 | the validity check looks for `<stem>.cse` instead |
| EnvironmentHelpers.WantedMissing | csbenchlab/backend/environment_helpers.py:67-94 | the marker the check wants is not among the created files |
| EnvironmentHelpers.CreatedIsValid | csbenchlab/backend/environment_helpers.py:50-94 | corrected, a created environment is a valid environment path |
| EnvironmentHelpers.StepsPass | csbenchlab/backend/environment_helpers.py:62-77 | successful creation steps leave the folder and the marker in place |
| EnvironmentHelpers.CreateEnvironment | csbenchlab/backend/environment_helpers.py:50-79 | the disk and outcome afterwards are those of the creation as written, with the marker `<env_name>.cse` |
| EnvironmentHelpers.ScriptPath | csbenchlab/backend/environment_helpers.py:44-45 | the script is written to `<env_path>/<name>.py` |
| EnvironmentHelpers.GenerateControlEnvironment | csbenchlab/backend/environment_helpers.py:39-48 | the template filled with the arguments is written to the script path, or the write error is returned and nothing changes |
| EnvironmentHelpers.GeneratedCallRefusesSingleSystem | csbenchlab/backend/environment_helpers.py:41-43 | as written, a script generated without a system instance asks for the instance `'None'` and refuses an environment with one system |
| EnvironmentHelpers.GeneratedCallFixed | csbenchlab/backend/environment_helpers.py:41-43 | corrected, missing arguments stay missing in the generated call |
| EnvironmentHelpers.GeneratedCallFixedMatchesDirect | csbenchlab/backend/environment_helpers.py:9-43 | the corrected script with missing arguments loads what the direct call loads |
| LegacyEnvironmentHelpers.LegacyIds | backend/environment_helpers.py:18-21 | the older filter: `[]` without ids, else `json.loads` of them |
| LegacyEnvironmentHelpers.LegacyFilter | backend/environment_helpers.py:10-30 | the controller ids are parsed as JSON before `controllers` is read, so their parse error comes first; on success the older data hold the selected systems, the listed Python controllers, and a valid `Ts` |
| LegacyEnvironmentHelpers.LegacyName | backend/environment_helpers.py:32 | the name read with a default of `GeneratedEnvironment` |
| LegacyEnvironmentHelpers.GenerateControlEnvironment | backend/environment_helpers.py:5-33 | the older revision succeeds exactly when loading, filtering and evaluating the parameters succeed |
| LegacyEnvironmentHelpers.NoIdsSelectsNothing | backend/environment_helpers.py:18-22 | without ids no controller is selected and no warning is issued |
| LegacyEnvironmentHelpers.KeepListedNone | backend/environment_helpers.py:22 | an empty filter keeps no controller |
| LegacyEnvironmentHelpers.DecodedIdsFilter | backend/environment_helpers.py:20-23 | decoded ids keep exactly the Python controllers whose `Id` is listed |
| LegacyEnvironmentHelpers.RevisionsDiffer | backend/environment_helpers.py:18-19 | the two revisions part on missing ids: the newer keeps every controller, the older none |
| PluginHelpers.ClassStrInjective | csbenchlab/plugin_helpers.py:10-11 | `str(base)` of two classes is equal only for the same qualified name |
| PluginHelpers.ClassAttr | csbenchlab/registry.py:16-17 | `hasattr` on a class: the attribute is found exactly when some class of the MRO defines it |
| PluginHelpers.MatchingBases | csbenchlab/plugin_helpers.py:10-11 | the list comprehension over `__mro__` is non-empty exactly when some base renders as the wanted class string |
| PluginHelpers.AnyBaseDerives | csbenchlab/plugin_helpers.py:10-11 | `any([...])` over the matching bases is true exactly when the class derives from the named base |
| PluginHelpers.ParsePluginTypeSpec | csbenchlab/plugin_helpers.py:3-22 | the type is `sys`, `ctl`, `est` or `dist` by the first of the four bases the class derives from, in that order, and `''` when it derives from none |
| PluginHelpers.SameNameOtherModule | csbenchlab/plugin_helpers.py:10-11 | a base with the right class name from another module is not recognised |
| PluginHelpers.ModuleNameOfPy | csbenchlab/plugin_helpers.py:41-66 | the module name of `<dir>/<base>.py` is `<base>` |
| PluginHelpers.ImportModuleFromPath | csbenchlab/plugin_helpers.py:24-47 | a missing path raises `ValueError`, a module the importer cannot find raises `ValueError`, otherwise the importer's result |
| PluginHelpers.GetPluginClass | csbenchlab/plugin_helpers.py:49-70 | a missing path raises `ValueError`; otherwise the module's member named after the file, or `ValueError` when it has none |
| PluginHelpers.GetPluginClassOfPy | csbenchlab/plugin_helpers.py:63-70 | a plugin file `<dir>/<base>.py` yields the module's member `<base>` |
| Registry.ClassAttrFirst | csbenchlab/registry.py:16-17 | attribute lookup returns the first definition along the MRO |
| Registry.CasadiInherited | csbenchlab/registry.py:6-17 | a class is a CasADi component exactly when the first `casadi_plugin__` along its MRO is `True`; `1` does not count |
| Registry.ClassAttrOr | csbenchlab/registry.py:47-48 | `getattr` with a default |
| Registry.InfoOf | csbenchlab/registry.py:43-50 | the plugin info is a dict |
| Registry.PluginInfo | csbenchlab/registry.py:38-53 | a non-class member raises `AttributeError`; a class not derived from `PluginBase` raises `ValueError`; otherwise its info |
| Registry.GetPluginInfoFromFile | csbenchlab/registry.py:20-53 | errors of finding the class propagate; otherwise the class's info |
| Registry.InfoFields | csbenchlab/registry.py:43-50 | the info's name, type, CasADi flag, description (with its default) and parameter description |
| Registry.AcceptedHasParameters | csbenchlab/registry.py:39-48 | a class with the real `PluginBase` on its MRO, none of whose classes sets `param_description` to `None`, is accepted and reports `HasParameters`; it reports `[]` when no class before `PluginBase` sets `param_description` |
| Registry.ParamsDefined | csbenchlab/registry.py:46 | on such a class `param_description` is found and is not `None` |
| Registry.InfoHasParameters | csbenchlab/registry.py:46 | `HasParameters` is true exactly when `param_description` is found and not `None` |
| Registry.ParamFromSomeClass | csbenchlab/registry.py:48 | the parameters reported are those of some class of the MRO |
| Registry.FirstMissing | csbenchlab/registry.py:59-62 | the first public name that cannot be read, if there is one |
| Registry.ParsePluginSpec | csbenchlab/registry.py:56-64 | the namespace holds exactly the public names, each with its value; a public name that cannot be read raises |
| Registry.ParsePlugin | csbenchlab/registry.py:56-64 | the loop over `dir(obj)` returns the namespace of its specification |
| Registry.PublicPrefixStep | csbenchlab/registry.py:59-62 | one loop step adds the name exactly when it is public |
| Registry.FirstMissingStep | csbenchlab/registry.py:59-62 | one loop step stops at a public name that cannot be read |
| Registry.ParsePluginCopiesPublic | csbenchlab/registry.py:56-64 | when `dir` lists exactly the attributes, the result copies every public one |
| PluginBase.PairsKey | csbenchlab/plugin/PluginBase.py:22-32 | after `n` steps a key is parsed exactly when it stands as a string at an even position already visited |
| PluginBase.PairsValue | csbenchlab/plugin/PluginBase.py:27-31 | the value of a key is the one following its last occurrence, `None` at the end of the arguments |
| PluginBase.ParsedMeaning | csbenchlab/plugin/PluginBase.py:18-33 | the parsed keys are exactly the strings at even positions, each bound to the argument after its last occurrence |
| PluginBase.ParsedExamples | csbenchlab/plugin/PluginBase.py:18-33 | no arguments give `{}`; a repeated key keeps its last value; a non-string at an even position is skipped with its partner and a trailing key gets `None` |
| PluginBase.ParsePositionalArgs | csbenchlab/plugin/PluginBase.py:18-33 | the stepping loop returns the parsed map of its specification |
| PluginBase.OverlayKey | csbenchlab/plugin/PluginBase.py:14-16 | after `initialize(**kwargs)` the attributes are the old ones plus the keyword names |
| PluginBase.OverlayLast | csbenchlab/plugin/PluginBase.py:15-16 | the last binding of a keyword wins |
| PluginBase.OverlayAt | csbenchlab/plugin/PluginBase.py:15-16 | with distinct keywords each keyword's value is set |
| PluginBase.OverlayOther | csbenchlab/plugin/PluginBase.py:15-16 | attributes not named by a keyword are untouched |
| PluginBase.Zeros | csbenchlab/plugin/Controller.py:49-51 | `np.zeros(n)` of a non-negative integer has `n` elements; a negative one raises |
| PluginBase.Len | csbenchlab/plugin/Controller.py:45 | `len` of a list or array is its element count, never negative |
| PluginBase.CheckOutputs | csbenchlab/plugin/Controller.py:45 | the assertion passes exactly when `len(ic)` equals the `Outputs` dimension; a value without `len` raises first |
| PluginBase.ZerosFor | csbenchlab/plugin/Controller.py:49 | `np.zeros(dims["Outputs"])`, or the error of the lookup |
| PluginBase.InitialConditionLength | csbenchlab/plugin/Controller.py:43-51 | both a checked initial condition and the zeros default have exactly `Outputs` elements |
| PluginBase.Instance.constructor | csbenchlab/plugin/PluginBase.py:6 | a new instance has no attributes |
| PluginBase.Instance.Initialize | csbenchlab/plugin/PluginBase.py:14-16 | the loop sets every keyword as an attribute, in order |
| PluginBase.Instance.IsConfigured | csbenchlab/plugin/PluginBase.py:55-58 | reading `is_configured` succeeds exactly when `_is_configured` is set |
| PluginBase.ParseDictRoundTrip | csbenchlab/plugin/PluginBase.py:36-53 | reading back what `parse_dict` builds gives the document: dicts become namespaces with the same fields in order, lists stay lists |
| ControllerPlugin.BuiltAttrs | csbenchlab/plugin/Controller.py:10-21 | the constructor sets exactly the configured flag, parameters, Simulink flag, data, mux and last element |
| ControllerPlugin.ConstructedDefaults | csbenchlab/plugin/Controller.py:10-28 | without named arguments: not configured, no last element, empty parameters, no mux, and data from `create_data_model`, `None` by default |
| ControllerPlugin.ConstructedFromArgs | csbenchlab/plugin/Controller.py:13-20 | `Mux` and `Data` given as positional pairs are kept |
| ControllerPlugin.InitialCondition | csbenchlab/plugin/Controller.py:42-52 | a given condition is checked against the mux outputs when there is a mux; without one, zeros of the mux outputs or `np.zeros(1)` |
| ControllerPlugin.InitialConditionMatchesMux | csbenchlab/plugin/Controller.py:42-52 | a configured controller's initial condition has as many elements as the mux has outputs |
| ControllerPlugin.Controller.constructor | csbenchlab/plugin/Controller.py:10-22 | the attributes are the built ones overlaid with the keyword arguments |
| ControllerPlugin.Controller.Configure | csbenchlab/plugin/Controller.py:42-54 | a failed check changes nothing; otherwise the initial condition and last element are set, the controller is configured and `on_configure`'s result returned |
| ControllerPlugin.Controller.Step | csbenchlab/plugin/Controller.py:56-59 | `on_step`'s result is returned and kept as the last element |
| ControllerPlugin.Controller.Reset | csbenchlab/plugin/Controller.py:61-62 | `on_reset`'s result is returned |
| DynSystemPlugin.BuiltAttrs | csbenchlab/plugin/DynSystem.py:8-17 | the constructor sets exactly the configured flag, parameters, Simulink flag, data and last element |
| DynSystemPlugin.ConstructedDefaults | csbenchlab/plugin/DynSystem.py:8-17 | without named arguments: not configured, no last element, empty parameters, data from `create_data_model` |
| DynSystemPlugin.InitialCondition | csbenchlab/plugin/DynSystem.py:44-49 | the dimensions come from `get_dims_from_params`; a given condition is checked against them, otherwise zeros of the outputs |
| DynSystemPlugin.DefaultDimsFail | csbenchlab/plugin/DynSystem.py:20-44 | a system that does not override `get_dims_from_params` cannot be configured |
| DynSystemPlugin.InitialConditionMatchesDims | csbenchlab/plugin/DynSystem.py:44-50 | a configured system's initial condition has as many elements as its outputs |
| DynSystemPlugin.DynSystem.constructor | csbenchlab/plugin/DynSystem.py:8-18 | the attributes are the built ones overlaid with the keyword arguments |
| DynSystemPlugin.DynSystem.Configure | csbenchlab/plugin/DynSystem.py:42-51 | the system is marked configured before the dimensions are read, even when configuring then fails |
| DynSystemPlugin.DynSystem.Step | csbenchlab/plugin/DynSystem.py:53-56 | `on_step`'s result is returned and kept as the last element |
| DisturbancePlugin.BuiltAttrs | csbenchlab/plugin/DisturbanceGenerator.py:8-19 | the constructor sets exactly the configured flag, parameters, system dimensions, Simulink flag, data and last element |
| DisturbancePlugin.ConstructedDefaults | csbenchlab/plugin/DisturbanceGenerator.py:13 | without `SystemDims` the dimensions are `{}` and the generator is not configured |
| DisturbancePlugin.InitialCondition | csbenchlab/plugin/DisturbanceGenerator.py:36-44 | a given condition is checked only against non-empty dimensions; without one, zeros of the outputs, or `ValueError` when there are no dimensions |
| DisturbancePlugin.EmptyDims | csbenchlab/plugin/DisturbanceGenerator.py:37-44 | with empty dimensions a given condition is accepted unchecked and a missing one raises |
| DisturbancePlugin.DisturbanceGenerator.constructor | csbenchlab/plugin/DisturbanceGenerator.py:8-19 | the attributes are the built ones overlaid with the keyword arguments |
| DisturbancePlugin.DisturbanceGenerator.Configure | csbenchlab/plugin/DisturbanceGenerator.py:34-46 | the generator is marked configured first; on success the initial condition and last element are set |
| DisturbancePlugin.DisturbanceGenerator.Step | csbenchlab/plugin/DisturbanceGenerator.py:48-51 | `on_step`'s result is returned and kept as the last element |
| LibraryHelpers.ManifestPath | backend/library_helpers.py:15-56 | a library's manifest is `autogen/manifest.json` inside it |
| LibraryHelpers.ListDirCheck | backend/library_helpers.py:7 | listing the registry succeeds exactly when it is a directory |
| LibraryHelpers.ReadManifest | backend/library_helpers.py:21-24 | a missing manifest leaves the plugins as they were; a present one binds its `Library` to its `Registry` |
| LibraryHelpers.ReadManifestTwice | backend/library_helpers.py:21-24 | reading the same manifest a second time changes nothing |
| LibraryHelpers.EntryManifest | backend/library_helpers.py:13-20 | a folder's manifest lies inside it, a `.json` link's manifest inside its `Path`, and any other entry keeps the previous manifest name |
| LibraryHelpers.PluginsStep | backend/library_helpers.py:9-24 | ignored names change nothing; any other entry picks a manifest and reads it, and with no manifest name bound yet it raises `UnboundLocalError` |
| LibraryHelpers.GetAvailablePlugins | backend/library_helpers.py:5-25 | the loop over the registry listing returns the specification's plugin map or its first error |
| LibraryHelpers.PluginsFromAppend | backend/library_helpers.py:9-24 | scanning `a + b` is scanning `a` and then `b` from where `a` stopped |
| LibraryHelpers.PluginsKeysGrow | backend/library_helpers.py:24 | the scan never drops a library once read |
| LibraryHelpers.LaterOverwrites | backend/library_helpers.py:24 | the last folder naming a library decides its registry |
| LibraryHelpers.UnboundAtStart | backend/library_helpers.py:14-21 | a plain file first in the listing raises `UnboundLocalError` |
| LibraryHelpers.PlainEntryRereads | backend/library_helpers.py:14-24 | a plain file after a library re-reads the previous manifest and leaves the map as it was |
| LibraryHelpers.SelectedPath | backend/library_helpers.py:39-46 | a matching folder is returned as its path; a matching `.json` link gives its `Path` |
| LibraryHelpers.GetLibraryPath | backend/library_helpers.py:28-47 | the loop returns the specification's path or error |
| LibraryHelpers.FirstSelectedWins | backend/library_helpers.py:32-46 | the first entry named `lib` or `lib.json` decides the result |
| LibraryHelpers.NoneSelected | backend/library_helpers.py:47 | with no matching entry the result is `FileNotFoundError` |
| LibraryHelpers.FindComponent | backend/library_helpers.py:64-66 | a found component has the requested `Name`; none found means every component has a different one |
| LibraryHelpers.FindInRegistry | backend/library_helpers.py:63-66 | a found component comes from some registry group; none found means no group holds one with that `Name` |
| LibraryHelpers.PluginInfoAt | backend/library_helpers.py:56-66 | a library without a manifest raises `ValueError`; otherwise the component is searched in the manifest's `Registry`, `{}` when absent |
| LibraryHelpers.GetPluginInfoSpec | backend/library_helpers.py:50-66 | a directory is used as the library path; any other name goes through `get_library_path` and its error is passed on |
| LibraryHelpers.GetPluginInfo | backend/library_helpers.py:50-66 | the nested loop returns the specification's component or `None` |
| LibraryHelpers.FindInEntries | backend/library_helpers.py:63-66 | the loop over registry groups finds what the specification finds |
| LibraryHelpers.FindInRegistryFirst | backend/library_helpers.py:63-66 | the first group holding the name decides the result |
| LibraryHelpers.ValidIsFolder | backend/library_helpers.py:87-89 | a valid library holds both `package.json` and `plugins.json`, so it is a directory |
| LibraryHelpers.GetLibraryInfo | backend/library_helpers.py:68-84 | a valid library's `package.json` is read; an invalid name raises `TypeError` when `only_registered` is set and `ValueError` otherwise |
| LibraryHelpers.InfoIgnoresFlag | backend/library_helpers.py:69-83 | for a valid library the flag makes no difference |
| LibraryHelpers.GetLibraryInfoFixed | backend/library_helpers.py:68-84 | with the registry lookup made as intended, a registered name's info is looked up through its path |
| LibraryHelpers.RegisteredNameInfo | backend/library_helpers.py:73 | a registered library named by its registry name cannot be read as written, but is read by the fixed lookup |
| LibraryHelpers.LibsStep | backend/library_helpers.py:97-110 | ignored names change nothing; a valid library folder or linked library is appended, nothing else is |
| LibraryHelpers.ListComponentLibraries | backend/library_helpers.py:92-111 | the loop returns the specification's list or its first error |
| LibraryHelpers.ListedAreValid | backend/library_helpers.py:102-110 | the listing only appends, and everything it appends is a valid library |
| LibraryHelpers.ValidFoldersListed | backend/library_helpers.py:102-104 | every valid library folder in the registry is listed |
| LibraryHelpers.RefreshComponentLibrary | backend/library_helpers.py:113-117 | as written the call always raises `TypeError` |
| LibraryHelpers.RefreshNeverLooksUp | backend/library_helpers.py:113-117 | a registered valid library never reaches `NotImplementedError` as written, and does with the fixed lookup |
| LibraryHelpers.RefreshComponentLibraryFixed | backend/library_helpers.py:113-117 | with the lookup fixed: a missing library passes on the lookup error, and a found one raises `NotImplementedError` exactly when it is valid |
| LibraryHelpers.RegisterComponentLibrary | backend/library_helpers.py:119-120 | always raises `NotImplementedError` |
| LibraryHelpers.GetOrCreateComponentLibrary | backend/library_helpers.py:123-124 | always raises `NotImplementedError` |
| EvalParameters.Call | csbenchlab/eval_parameters.py:22-26 | calling a function value calls it on the namespace built so far; anything else is not callable |
| EvalParameters.FindByName | csbenchlab/eval_parameters.py:19 | a found descriptor comes from the class's list and has the parameter's `Name`; none found means no descriptor has it |
| EvalParameters.FindByNameFirst | csbenchlab/eval_parameters.py:19 | the first descriptor with the parameter's `Name` is the one found |
| EvalParameters.HandleCallableValue | csbenchlab/eval_parameters.py:14-27 | a value that is not `None` is kept; otherwise the `DefaultValue` decides: the plugin class's default function, the MATLAB marker, a direct call, or `None` |
| EvalParameters.PyFhCallsClassDefault | csbenchlab/eval_parameters.py:16-22 | `csb_py_fh` calls the default function of the plugin class's first descriptor with the same name |
| EvalParameters.PyFhMissingDescriptor | csbenchlab/eval_parameters.py:19-21 | `csb_py_fh` with no matching descriptor raises `ValueError` |
| EvalParameters.LoadParamClassFromFile | csbenchlab/eval_parameters.py:29-39 | a loaded class always has `param_description`; import errors pass on, and a module without the named class raises `ValueError` |
| EvalParameters.Prepare | csbenchlab/eval_parameters.py:51-73 | a parameter file without `ComponentParams` raises `ValueError`; a prepared evaluation uses the given descriptions unless a plugin class was loaded |
| EvalParameters.EvalStep | csbenchlab/eval_parameters.py:75-81 | one parameter is added to the namespace under its `Name`, the others are kept, and a name missing from `ComponentParams` raises `ValueError` |
| EvalParameters.EvalFromStep | csbenchlab/eval_parameters.py:75-81 | the loop stops at the first error and otherwise goes on from the extended namespace |
| EvalParameters.EvalFromAllDefined | csbenchlab/eval_parameters.py:75-81 | after a successful loop every described parameter is defined by `ComponentParams` and present in the result |
| EvalParameters.LaterSeesEarlier | csbenchlab/eval_parameters.py:78-81 | a default function of a later parameter is called with the parameters evaluated before it |
| EvalParameters.EvalPluginParamsFromFile | csbenchlab/eval_parameters.py:46-82 | the method returns the specification's namespace, short circuit or error |
| EvalParameters.EvalEach | csbenchlab/eval_parameters.py:75-82 | the loop over descriptions returns what the specification's fold returns from an empty namespace |
| EvalParameters.FlaggedShortCircuits | csbenchlab/eval_parameters.py:56-58 | a `ComponentParams` flagged `load_from_file__` is returned as is, whatever the descriptions and plugin arguments |
| EvalParameters.DictDescriptionWrapped | csbenchlab/eval_parameters.py:72-73 | a single description dict evaluates as the one-element list holding it |
| EvalParameters.PrepareWrapped | csbenchlab/eval_parameters.py:72-73 | preparing a dict or the list holding it gives the same class, plugin class and descriptions |
| EvalParameters.PyPathOverridesDescriptions | csbenchlab/eval_parameters.py:60-70 | with a `.py` plugin path the given descriptions are ignored |
| EvalParameters.NeitherClassNorPath | csbenchlab/eval_parameters.py:61-63 | with neither a plugin class nor a path the evaluation raises `ValueError` |
| EvalParameters.LibraryClass | csbenchlab/eval_parameters.py:41-44 | a class loaded through the library's plugin info has `param_description` |
| EvalParameters.EvalComponentSpec | csbenchlab/eval_parameters.py:84-90 | a component without a parameter file evaluates to `None` |
| EvalParameters.EvalComponent | csbenchlab/eval_parameters.py:84-90 | the method returns the specification's result |
| EvalParameters.EnvStep | csbenchlab/eval_parameters.py:99-104 | each component needs an `Id`; `slx` and `mat` components are skipped, the others are stored under their `Id` |
| EvalParameters.EvalEnvironmentParams | csbenchlab/eval_parameters.py:92-105 | the loop over all components and subcomponents returns the specification's map or its first error |
| EvalParameters.EvalEntry | csbenchlab/eval_parameters.py:100-104 | one iteration of the loop is the specification's step |
| EvalParameters.EnvFromKeys | csbenchlab/eval_parameters.py:99-105 | the result holds every evaluated component's `Id` and nothing else new |
| EvalParameters.EnvFromHasIds | csbenchlab/eval_parameters.py:104 | every component that is not skipped has its `Id` in the result |
| EvalParameters.EnvFromKeysFrom | csbenchlab/eval_parameters.py:104 | every key of the result was there before or is the `Id` of an evaluated component |
| EvalParameters.EnvFromKeepsKeys | csbenchlab/eval_parameters.py:104 | later components never remove an earlier entry |
| EvalParameters.NoParamFileIsNone | csbenchlab/eval_parameters.py:85-104 | a component whose parameter file is missing is stored as `None` |
| MatlabBackend.LittleEndian4 | csb_matlab/matlab_daemon.py:123 | the length header is four bytes |
| MatlabBackend.LengthRoundTrip | csb_matlab/matlab_daemon.py:123 | the client's little-endian decoding gives back the length the daemon encoded |
| MatlabBackend.Recv | matlab/matlab_backend.py:113-121 | `recv(n)` returns a prefix of what is still to come, at most `n` bytes long |
| MatlabBackend.Receive | matlab/matlab_backend.py:112-121 | a raw request takes up to 1024 bytes; a JSON request whose first read is empty fails on `l[0]` |
| MatlabBackend.FrameRead | matlab/matlab_backend.py:115-121 | a zero flag and a four-byte length read whole yield exactly the payload |
| MatlabBackend.SuccessFrameRoundTrip | csb_matlab/matlab_daemon.py:123-124 | the payload of a success frame is read back as the response the daemon sent |
| MatlabBackend.ZipInto | matlab/matlab_backend.py:102 | `dict(zip(...))` succeeds exactly when every paired key is a string |
| MatlabBackend.ZipOther | matlab/matlab_backend.py:102 | a key that is not zipped keeps its value |
| MatlabBackend.ZipLast | matlab/matlab_backend.py:102 | a zipped key gets the value paired with its last occurrence |
| MatlabBackend.ParseResponse | matlab/matlab_backend.py:89-104 | `csb_err:` and `err:` replies raise with the rest of the text; raw replies are returned as text, an empty JSON reply is `None`, and a `dict` reply is its zipped keys and values |
| MatlabBackend.ErrorFrameRead | csb_matlab/matlab_daemon.py:114-118 | an error frame reads as `csb_err: ...` when the flag arrives alone and as `err: ...` when the first read takes five bytes |
| MatlabBackend.ErrorTextsRaise | matlab/matlab_backend.py:90-95 | both error prefixes raise the same message |
| MatlabBackend.ErrorReachesCaller | matlab/matlab_backend.py:107-125 | however the first read splits an error frame, `eng_eval` raises the daemon's message |
| MatlabBackend.FormatDefined | matlab/matlab_backend.py:140 | `str.format` with positional `{}` holes succeeds exactly when there are at least as many arguments as holes |
| MatlabBackend.FormatWithHoles | matlab/matlab_backend.py:140 | filling every hole with `{}` gives the template back |
| MatlabBackend.FormatPlain | matlab/matlab_backend.py:140 | text without braces is copied unchanged |
| MatlabBackend.FormatHole | matlab/matlab_backend.py:140 | a leading hole takes the first argument |
| MatlabBackend.UnwrapWrap | matlab/matlab_backend.py:143-153 | the command wrapped for a `dict` or counted result can be recovered from the text sent |
| MatlabBackend.RunCommandText | matlab/matlab_backend.py:127-153 | `csb:` commands go raw; unknown commands and wrong argument counts raise; any other command sends the table's template as written (`get_library_info` included), formatted and wrapped for the table's `nargout` |
| MatlabBackend.RunCommand | matlab/matlab_backend.py:127-155 | a raw `csb:` command returns the reply text; a table command's result is `eng_eval` of its request; the errors of building the request reach the caller |
| MatlabBackend.CommandErrorReachesCaller | matlab/matlab_backend.py:107-155 | a table command whose evaluation raised in MATLAB raises here with the daemon's message |
| MatlabBackend.CommandSuccessReply | matlab/matlab_backend.py:107-155 | a table command answered by a success frame returns its payload parsed for the table's `nargout` |
| MatlabBackend.CsbReplyIsRaw | matlab/matlab_backend.py:96-113 | a `csb:` reply that is not an error is returned as sent |
| MatlabBackend.FormatTwo | matlab/matlab_backend.py:140 | a template with two holes puts the two arguments in order |
| MatlabBackend.LibraryInfoOneLiteral | matlab/matlab_backend.py:16 | as written, both `get_library_info` arguments end up inside one MATLAB string literal |
| MatlabBackend.LibraryInfoFixed | matlab/matlab_backend.py:16 | with the quote moved, the name is a string literal and the flag a separate argument |
| MatlabBackend.StartSpec | matlab/matlab_backend.py:157-174 | a running daemon without restart only reads its path; a restart that leaves it running, or a failed start, raises and keeps the path; otherwise the path comes from `csb:path` |
| MatlabBackend.Backend.constructor | matlab/matlab_backend.py:33-35 | a new backend remembers the restart flag and has no path |
| MatlabBackend.Backend.Start | matlab/matlab_backend.py:157-174 | `start` returns the specification's outcome and leaves the specification's path |

## Left out

- Files, directories and the working directory are a map value and a path parameter. Permissions, races, symbolic links and text encodings are not modelled.
- The JSON and JSON5 libraries are a codec parameter. `Faithful` states the one property the model relies on: loading a dumped JSON value gives it back.
- The order of `os.listdir`, `iterdir` and `glob` is an input. It is a listing of the directory's children, in whatever order the caller supplies.
- `uuid4` is a parameter: a string, or a numbered supply of strings. The model does not assume the supplied ids are distinct unless a lemma says it does.
- Dynamic import, `exec_module`, `sys.path.append` and calls of plugin-defined functions are oracle parameters. Examples are `load_py_component_params`, `get_system_dims`, `on_configure`, `on_step` and `on_reset`.
- The Qt user interface: tree views, dialogs, widgets, editor opening (`open_file_in_editor`, the `open_*` wrappers) and logging. Only the editor's data effects are modelled.
- FileSystem.Join: a record `Id`, a component `Id` and a record `Name` are joined as one path component, in `ChildFile`, `ComponentDir` and the record files of `env_file_manager.py`. `pathlib` splits such a value at `/`, drops `.` and resolves `..` through the operating system; a value containing `/`, or equal to `.` or `..`, is not modelled there. The lemmas that rely on different values naming different files require plain names (`PlainName`, `PlainId`, `PlainRecordName`). Only `remove_component` forms its path as `pathlib` does (`RecordPath`).
- EnvironmentDataManager.RecordPath: an id of `..` stays a component named `..` instead of the root's parent, and an absolute id is taken from the top of the modelled tree.
- `duplicate_subcomponent` called with `modified_data=None`: no caller in the editor uses that path.
- EnvironmentDataManager.ComponentDataManager.SaveAll: proved to empty the root and then save the records in order. The model does not state that the root afterwards holds exactly the saved components.
- The newer `EnvironmentDataManager.load_environment_data` and `_create_subcomponent_data_managers` are not modelled. The second one only fills the manager cache. The environment helpers take the loaded data as a parameter instead.
- `EnvironmentDataManager.save_environment_data` is not modelled. It calls the undefined `_save_subcomponent_data`.
- `EnvironmentDataManager.export_component` and `import_component` are not modelled:
  - their first definitions are shadowed;
  - the second `import_component` uses the undefined `self.env_path` and `STANDALONE_COMPONENT_PATHS`;
  - `shutil.copytree` of a whole tree is outside the filesystem operations modelled.
- The `EnvironmentDataManager` wrappers `has_component_params`, `duplicate_component_params`, `has_files`, `duplicate_files`, `remove_parameter_file`, `remove_file` and `set_component_params` each resolve a manager and forward the call. The forwarded operations are modelled in `ParameterHandler` and `ComponentFileHandler`.
- `get_component_relative_param_file_path` and `get_component_param_file_path` are imported from `csbenchlab.data_desc`, whose `__init__.py` does not define them. The parameter path of a component is therefore a parameter (`paramPath`).
- `EnvFileManager.export_environment` is not modelled: its body is `pass`. `setup_environment` is not modelled for the same reason.
- The body of `get_or_create_component_library` after its `raise` is unreachable and is not modelled.
- PluginBase.ParseDictRoundTrip: floats are kept as they are. The rounding of integral floats at csbenchlab/plugin/PluginBase.py:46-52 is floating-point behaviour and is left out.
- `PluginBase.data_as_json` is the JSON encoding of the attribute namespace, which the codec parameter stands for. It is not modelled.
- `DynSystem.reset` and `DisturbanceGenerator.reset` only return `on_reset()`, an oracle. They are not modelled. `Controller.Reset` shows the same forwarding.
- `eval_parameters`' module cache `__cache_results` and `clear_cache_` are left out: the cache is written but never read in the core.
- MATLAB bridge plumbing is left out: socket connect and close, `subprocess` daemon launch, `time.sleep` and the polling loop. The probes `is_daemon_running` and `start_daemon`, and the bytes each socket returns, are inputs of `StartSpec`. The daemon side is modelled only through the frames it sends.
- The per-command methods attached to `MatlabBackend` at matlab/matlab_backend.py:182-183 are `run_command` with a fixed command name. Only `RunCommand` is modelled.
- Exception messages that interpolate values keep the exception class, and the interpolated text wherever a lemma distinguishes errors by it. Elsewhere they carry a fixed text.
- Dict keys are strings: a JSON document can hold no other, and every dict the core builds is keyed by names. The members below narrow Python where a non-string key would reach them.
- ZipInto: `dict(zip(keys, values))` with an int, float, bool or `None` key is a `TypeError` in the model, while Python accepts every hashable key.
- EnvironmentDataManager.FillStep: a name in `Subcomponents` that is not a string is a `TypeError` in the model, where Python looks it up as a key.
- ParameterHandler.ListParams: a descriptor whose `Name` is not a string is refused, where Python would use it as a key. `ParamsSrc` inherits this.
- Values.IdText: a non-string `Id` renders as `""`, where the f-string renders `str(Id)`; a component that is not a dict renders as `""`, where Python raises `AttributeError`.
- Values.Truthy: a NumPy array is true when it has elements. NumPy raises for an array of more than one element and takes the truth of the element for one.
- Values are compared structurally. Python's cross-type equalities such as `1 == 1.0 == True` are not modelled.
- `SimpleNamespace` and object attributes are maps from names to values. Object identity and aliasing are not modelled: records are values, and the mutable state is the editor's containers, the manager caches and the disk.

## Findings

| source | as written | input that shows it | evidently intended | confidence | as-written member | corrected member |
|---|---|---|---|---|---|---|
| csbenchlab/environment_data_manager.py:151-155 | `_store_value` rejects only a missing `Id`, while `_load_value` (142-146) also rejects `""` | a disturbance subcomponent `{"Id": "", "ComponentType": "disturbance"}` is saved into the `disturbances` folder itself, and loading it back raises | the store rejects an empty `Id`, as the load does | not executed | StoreRoundTrip.EmptyIdNotRestored | StoreRoundTrip.StoreThenLoadValue |
| env_file_manager.py:62 | the filter reads `component.Id` on a dict component | adding any dict component to a store whose list is not empty raises `AttributeError` | `component['Id']` | not executed | EnvFileManager.AddFilterAsWritten | EnvFileManager.AddThenLoad |
| csb_qt/csb_pyqt_env_manager.py:265-267 | `make_name_unique` reads `o['Name']` of every object, including an empty placeholder dict | adding a subcomponent to a field that holds `{}` raises `KeyError('Name')` | an empty placeholder has no name to avoid | not executed | EnvEditor.PlaceholderNamingFails | EnvEditor.PlaceholderNaming |
| csb_qt/csb_pyqt_env_manager.py:175 | `duplicate_component` iterates `d["Subcomponents"]` | duplicating a freshly added metric, whose defaults have no `Subcomponents`, raises `KeyError` | `d.get("Subcomponents", [])` | not executed | EnvEditor.DuplicateMetricFails | EnvEditor.DuplicateMetric |
| csbenchlab/backend/environment_helpers.py:67-94 | `create_environment` writes the marker `<env_name>.cse`, while `is_valid_environment_path` looks for `<stem>.cse` | `create_environment(base, "demo.v2")` writes `demo.v2.cse`, and the check looks for `demo.cse` | the marker is found for every created environment | not executed | EnvironmentHelpers.DottedNameNotRecognised | EnvironmentHelpers.CreatedIsValid |
| csbenchlab/backend/environment_helpers.py:41-43 | missing arguments are formatted as the strings `None` and `"None"` inside the generated script | a script generated without a system instance, for an environment with one system, selects the system `'None'` and raises | missing arguments stay `None` | not executed | EnvironmentHelpers.GeneratedCallRefusesSingleSystem | EnvironmentHelpers.GeneratedCallFixed |
| backend/library_helpers.py:73 | `get_library_path(lib_name_or_path)` calls the module-level function, whose first parameter is `cls`, with one argument | `get_library_info("mylib")` for a registered library named `mylib` raises `TypeError` | `cls.get_library_path(lib_name_or_path)` | not executed | LibraryHelpers.RegisteredNameInfo | LibraryHelpers.GetLibraryInfoFixed |
| backend/library_helpers.py:114 | `refresh_component_library` makes the same one-argument call | `refresh_component_library("mylib")` raises `TypeError` for every name, never reaching its own checks | `cls.get_library_path(lib_name)` | not executed | LibraryHelpers.RefreshNeverLooksUp | LibraryHelpers.RefreshComponentLibraryFixed |
| matlab/matlab_backend.py:16 | the `get_library_info` template puts both holes inside one quoted literal | arguments `mylib` and `1` give `get_library_info('mylib, 1')` | `get_library_info('{}', {})` | not executed | MatlabBackend.LibraryInfoOneLiteral | MatlabBackend.LibraryInfoFixed |

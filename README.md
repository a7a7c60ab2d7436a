# eoap-gen core in Dafny

eoap-gen turns a YAML description of a workflow into CWL v1.0 documents:
- one CommandLineTool per step;
- a Workflow document that connects the steps;
- a packed version of that workflow, cleaned up for publication.

This project models the logic of that pipeline that does not depend on I/O. Most members come with proofs of what they do.

- **Configuration** (`Config.dfy`, over the untyped YAML values of `Yaml.dfy`). This covers:
  - reading inputs, outputs, steps and the workflow from raw dictionaries, including the `d[k]` versus `d.get(k)` error cases;
  - the defaulting rules for label, doc, type and source;
  - scatter ids derived from the per-input flags, with the `"dotproduct"` default;
  - the second-phase `run` assignment (`WorkflowConfig.SetStepRun`, a loop that updates the steps of a `WorkflowConfig` object in place);
  - the `to_cwl` builders, including the truthiness rule for the resource requirement.
- **The command-template compiler of `generate_docker_cli`** (`Placeholder.dfy`, `DockerCli.dfy`). This covers:
  - Python's `str.split()` (`Text.dfy`);
  - `re.match` of `(\S+)?\$\{([^}]+)\}` with its greedy backtracking;
  - the token loop as an imperative method with invariants;
  - the error cases;
  - the outputs map of `write_cwl_cli_outputs`.
- **The patching of a generated tool by `modify_cwl_cli`** (`ModifyCli.dfy`). The loaded tool is a class whose fields are edited in place.
- **The two `sed` rewrites of `cleanup_packed_workflow`** (`PackedCleanup.dfy`), as string functions on the text of the file:
  - `s/\([^ ]*\)\.cwl/\1/g`, with POSIX leftmost-longest matching;
  - `s/#main/#<wf_id>/g`.

Some behaviours of the code are easy to misread. The model follows the code:
- **`run --in ${foo} --out ${bar}`.** `--in` comes before the first placeholder. It therefore joins the unused `base_command` list, so `foo` is bound with no prefix and `separate` false. `bar` gets `--out` with `separate` true. See `DockerCli.ExampleInOut`.
- **The clean-up is not idempotent.** Running it again on its own output changes the text again:
  - `a.cwl.cwl` loses one `.cwl` per pass;
  - a workflow id that starts with `main` is renamed again on every pass.

  See `PackedCleanup.CleanupTwiceStripsAgain` and `PackedCleanup.CleanupTwiceRenamesAgain`.
- **A packed id keeps its path.** The first `sed` only deletes the `.cwl`, so `file:///a/b/step1.cwl#step1` becomes `file:///a/b/step1#step1`. See `PackedCleanup.PackedIdKeepsPath` and `PackedCleanup.PackedStepId`.
- **`baseCommand` of a docker step.** It is the first token of the command alone. The source passes it as a single string; the model stores it as a one-element list.

## Model

| member | source | states |
|---|---|---|
| Config.LabelAndDoc | eoap_gen/config.py:35-36 | label is the first given value of label, doc and id, and doc the first given value of doc, label and id; both are non-empty whenever the id is |
| Config.NewWorkflowInput | eoap_gen/config.py:33-37 | keeps id and default; the type is the given one, or `"string"` when absent or empty; label and doc follow the mutual defaulting rule |
| Config.WorkflowInputFromDict | eoap_gen/config.py:40-47 | succeeds exactly when `id` is present as a string and the optional keys are absent, null or strings; the result is the constructor applied to those values |
| Config.NewWorkflowOutput | eoap_gen/config.py:70-75 | keeps the id; the type defaults to `"Directory"`; a list source is kept as is and a single reference `s` becomes `[s]` |
| Config.SourceFromDict | eoap_gen/config.py:82 | a missing `source` raises the missing-key error; a string or a list of strings is accepted, as one reference or as a list |
| Config.WorkflowInputToCwl | eoap_gen/config.py:49-56 | the CWL input parameter carries the id, label, doc, type and default unchanged |
| Config.WorkflowOutputFromDict | eoap_gen/config.py:78-83 | succeeds exactly when `id` and `source` are usable and `type` is absent or a string; the result is the constructor applied to them |
| Config.WorkflowOutputToCwl | eoap_gen/config.py:85-90 | the CWL output parameter carries the id and type, and the source list becomes `outputSource` |
| Config.ScatterFlag | eoap_gen/config.py:122 | `d.get("scatter", False)` is true exactly when the key holds `true`; absent or null means false |
| Config.StepInputFromDict | eoap_gen/config.py:118-126 | a missing `id` raises the missing-key error; on success every field is the looked-up value and `scatter` is the flag |
| Config.StepInputToCwl | eoap_gen/config.py:128-134 | the CWL step input carries the id, source, `valueFrom` and default; the scatter flag and type are dropped |
| Config.StepOutputFromDict | eoap_gen/config.py:146-151 | the params are the raw entry with only the `id` key removed: the same keys minus `id`, and the same values |
| Config.Iterate | eoap_gen/config.py:212-213 | iterating a list gives its items; an empty string or dictionary gives nothing; any other success is a list |
| Config.MapDicts | eoap_gen/config.py:213 | the comprehension succeeds exactly when every item is a dictionary that converts; the result converts the items one to one and in order |
| Config.OptionalEntries | eoap_gen/config.py:209-213 | a missing or falsy key gives the empty list; a list is converted item by item |
| Config.RequiredEntries | eoap_gen/config.py:289-291 | a missing key raises the missing-key error; a list is converted item by item |
| Config.ScatterIdsSpec | eoap_gen/config.py:214 | the scatter ids are exactly the ids of the inputs whose flag is set, one per such input and in declaration order, so each names a declared input |
| Config.NewStep | eoap_gen/config.py:191-205 | `scatter_method` becomes `"dotproduct"` exactly when the scatter ids are non-empty and no method is given, and otherwise stays as given (possibly none); a given `script` or `requirements` path is kept and an empty or absent one is dropped; id, inputs, outputs, scatter ids, `apt_install`, docker image, command, `conda` and `python_version` pass through unchanged; `run` is unset |
| Config.StepInputsFromDict | eoap_gen/config.py:209-214 | the scatter ids are absent exactly when the step has no (or falsy) inputs, and otherwise are derived from the converted inputs |
| Config.StepFromDict | eoap_gen/config.py:208-233 | succeeds exactly when every part converts; the step is the constructor applied to the converted inputs, outputs and scatter ids; a missing `id` raises the missing-key error |
| Config.StepFromDictScatter | eoap_gen/config.py:200-214 | a step read from the configuration scatters only over its own flagged inputs, with `"dotproduct"` unless a method is named |
| Config.StepToCwl | eoap_gen/config.py:235-243 | keeps the id and the run path; maps inputs and outputs one to one and in order; `scatter` is present exactly when the scatter ids are a non-empty list; keeps `scatterMethod` |
| Config.ResourcesFromDict | eoap_gen/config.py:292-303 | no `resources` key gives four absent bounds; a `resources` value that is not a dictionary is rejected; for a dictionary, the bounds are its `ram_min`, `ram_max`, `cores_min` and `cores_max` look-ups, and it fails exactly when one of them fails |
| Config.WorkflowRequirements | eoap_gen/config.py:318-336 | the requirements start with scatter support; exactly one resource requirement follows when some bound is truthy (0 counts as absent), and nothing otherwise |
| Config.WorkflowConfig.constructor | eoap_gen/config.py:271-280 | keeps id, inputs, outputs, steps and resources; label and doc follow the mutual defaulting rule and are non-empty whenever the id is |
| Config.WorkflowConfig.FromDict | eoap_gen/config.py:283-304 | succeeds exactly when the optional inputs, the required outputs, steps and id, and the resources all convert; the new object holds the converted values |
| Config.WorkflowConfig.SetStepRun | eoap_gen/config.py:313-315 | every step's `run` becomes `<cli_dir>/<id>/<id>.cwl`; no other field, no step count and no step order changes; afterwards every step has a run path |
| Config.WorkflowConfig.ToCwl | eoap_gen/config.py:317-337 | keeps id, label and doc; maps inputs, outputs and steps one to one and in order; version `v1.0`; requirements are scatter support, plus a resource requirement exactly when some bound is truthy; that requirement carries the four bounds as given |
| Text.SplitSpec | eoap_gen/cwl.py:63 | every token of `str.split()` is non-empty and whitespace-free, and the tokens concatenate to the text with its whitespace removed |
| Text.SplitAtSpace | eoap_gen/cwl.py:63 | any whitespace character separates tokens: the tokens of `a + c + b` are those of `a` followed by those of `b`, so repeated, leading and trailing whitespace yields no empty token |
| Text.SplitWord | eoap_gen/cwl.py:63 | a non-empty whitespace-free text is a single token; with `Text.SplitAtSpace` this makes the tokens exactly the maximal whitespace-free runs |
| Text.SplitJoin | eoap_gen/cwl.py:63 | splitting undoes joining with single spaces, for whitespace-free non-empty tokens |
| Text.ContainsSpec | eoap_gen/cwl.py:144 | the substring test `key in s` holds exactly when `key` occurs at some index of `s` |
| Placeholder.IdAt | eoap_gen/cwl.py:71 | `\$\{([^}]+)\}` matches at an index exactly when a complete marker starts there, and then group 2 is its content |
| Placeholder.MatchDownSpec | eoap_gen/cwl.py:71-73 | the backtracking of the greedy group 1 finds no match exactly when no marker can open, and otherwise the last index where one can |
| Placeholder.MatchTokenSpec | eoap_gen/cwl.py:71-81 | a token matches with the last marker that has a whitespace-free prefix: the id is that marker's content, the inline prefix is the text before it (absent when empty), and text after `}` is ignored |
| Placeholder.MatchTokenNone | eoap_gen/cwl.py:73-76 | a token is a literal exactly when no marker can open in it |
| Placeholder.MatchIdWellFormed | eoap_gen/cwl.py:71 | a matched id is non-empty and holds no `}`; a present inline prefix is non-empty |
| Placeholder.NoDollarNoMatch | eoap_gen/cwl.py:71 | a token without `$` is a literal |
| Placeholder.BareMarker | eoap_gen/cwl.py:71 | `${id}` matches with id `id` and no prefix |
| DockerCli.FindInput | eoap_gen/cwl.py:82 | `next(...)` gives none exactly when no step input has the id, and otherwise the first one that has it |
| DockerCli.PlaceholderParam | eoap_gen/cwl.py:76-98 | one placeholder raises the missing-input error exactly when its id is undeclared; otherwise it gives the string parameter at the token's index with the prefix rule, the `separate` rule, and `valueFrom` and `default` of the declared input |
| DockerCli.BindingAgrees | eoap_gen/cwl.py:79-91 | the truthiness tests `prefix and next_prefix`, `prefix or next_prefix` and `next_prefix and not prefix` agree with the prefix rule on non-empty tokens |
| DockerCli.CompileCommand | eoap_gen/cwl.py:72-100 | the token loop succeeds exactly when every placeholder names a declared input, and otherwise raises for the first one that does not; on success the literal run before the first placeholder is collected and there is one parameter per placeholder, in order |
| DockerCli.OutputsMapSpec | eoap_gen/cwl.py:66 | the outputs map has one key per output id, holding the params of the last output with that id |
| DockerCli.WriteCwlCliOutputs | eoap_gen/cwl.py:118-121 | the loop builds the same map as the dictionary comprehension: keys are the output ids and the last output with an id wins |
| DockerCli.GenerateDockerCli | eoap_gen/cwl.py:60-111 | raises when the command is absent or empty, at the first undeclared placeholder, and when the command is only whitespace; otherwise the tool runs the first token, has requirements `[DockerRequirement(image), InlineJavascriptRequirement]`, one parameter per placeholder, the outputs map and version `v1.0` |
| DockerCli.OnePerPlaceholder | eoap_gen/cwl.py:72-97 | every parameter sits at the index of a placeholder token and names its id; positions strictly increase; every placeholder token has a parameter |
| DockerCli.PrefixRules | eoap_gen/cwl.py:78-100 | no literal is pending at the first placeholder; a pending literal is the token just before, and only after some placeholder; the prefix is `pending + " " + inline` when both exist, else whichever exists; `separate` holds exactly when a literal is pending and there is no inline prefix |
| DockerCli.LeadingLiteralsDropped | eoap_gen/cwl.py:72-103 | the literals before the first placeholder never become a prefix: every pending or separated prefix comes from a token after the collected base-command run |
| DockerCli.ExampleInOut | eoap_gen/cwl.py:63-103 | for `run --in ${foo} --out ${bar}`, the literal run is `run --in`; `foo` is at position 2 with no prefix and `separate` false; `bar` is at position 4 with prefix `--out` and `separate` true |
| ModifyCli.TargetFrom | eoap_gen/cwl.py:143-145 | the target is the first tool input whose id contains the key, or none when no id contains it |
| ModifyCli.RetypedSpec | eoap_gen/cwl.py:141-148 | the retyping keeps every input's id, binding and default; the last typed step input targeting an input sets its type; untargeted inputs are untouched; with no typed step input nothing changes |
| ModifyCli.CommandLineTool.Load | eoap_gen/cwl.py:129 | the loaded tool saves back to the document it was loaded from |
| ModifyCli.CommandLineTool.RetypeInputs | eoap_gen/cwl.py:141-148 | the loop succeeds exactly when every typed step input has a target; on success the inputs are the full retyping; on failure it raises for the first untargeted one, keeping the edits before it; the other fields are unchanged |
| ModifyCli.CommandLineTool.ApplyStep | eoap_gen/cwl.py:131-148 | requirements become `[DockerRequirement(url), InlineJavascriptRequirement]`; `baseCommand` becomes `["python", "/app/app.py"]`, with `/usr/local/bin/_entrypoint.sh` first exactly when the step lists conda packages; then the inputs are retyped |
| ModifyCli.ModifyCwlCli | eoap_gen/cwl.py:126-153 | raises exactly when some typed step input has no target, naming the first; otherwise the saved tool has the new requirements and command, the retyped inputs, and its old outputs and version |
| PackedCleanup.LongestMatchSpec | eoap_gen/cwl.py:183 | at each position `[^ ]*\.cwl` matches exactly when a `.cwl` ends within the run of non-space characters there, and the match taken is the longest |
| PackedCleanup.StripCwlByRuns | eoap_gen/cwl.py:183 | the scanning rewrite equals the reference by runs: every maximal run between spaces and line ends loses its last `.cwl` and nothing else changes |
| PackedCleanup.StripCwlNoCwl | eoap_gen/cwl.py:183 | text without `.cwl` is left unchanged |
| PackedCleanup.StripCwlToken | eoap_gen/cwl.py:183 | a space-free token ending in `.cwl` loses exactly that suffix |
| PackedCleanup.StripCwlLastInToken | eoap_gen/cwl.py:183 | in a space-free token only the last `.cwl` is deleted |
| PackedCleanup.StripRunPath | eoap_gen/cwl.py:183 | the run reference `<cli_dir>/<id>/<id>.cwl` of a step becomes `<cli_dir>/<id>/<id>` |
| PackedCleanup.PackedIdKeepsPath | eoap_gen/cwl.py:183 | `<path>.cwl#<id>` becomes `<path>#<id>`: the path stays, and only the extension goes |
| PackedCleanup.PackedStepId | eoap_gen/cwl.py:183 | `file:///a/b/step1.cwl#step1` becomes `file:///a/b/step1#step1` |
| PackedCleanup.ReplaceMainNone | eoap_gen/cwl.py:193 | text without `#main` is left unchanged |
| PackedCleanup.ReplaceMainFirst | eoap_gen/cwl.py:193 | the first `#main` is replaced by `#<wf_id>`, the text before it is kept, and the scan resumes after it, without overlap |
| PackedCleanup.ReplaceMainSelf | eoap_gen/cwl.py:193 | renaming to `main` changes nothing |
| PackedCleanup.CleanupPacked | eoap_gen/cwl.py:181-200 | the clean-up equals the by-runs reference: every run between spaces and line ends loses its last `.cwl`, and then every `#main` is renamed |
| PackedCleanup.CleanupNoMarkers | eoap_gen/cwl.py:181-200 | a file with neither `.cwl` nor `#main` in it comes out unchanged |
| PackedCleanup.CleanupTwiceStripsAgain | eoap_gen/cwl.py:181-200 | the clean-up is not idempotent: `<stem>.cwl.cwl` becomes `<stem>.cwl` on one pass and `<stem>` on the next |
| PackedCleanup.CleanupTwiceRenamesAgain | eoap_gen/cwl.py:181-200 | the clean-up is not idempotent: with workflow id `main<x>`, `#main` becomes `#main<x>` and then `#main<x><x>` |

## Left out

- YAML loading and dumping (`load_config`, the `yaml.dump` writes) and the CWL library's `save` and `load_document_by_uri`. The model works on the loaded values (`Yaml.Value`) and on the saved document record (`Cwl.ToolDocument`). File paths and file handles do not appear.
- The external processes are not modelled:
  - `generate_cwl_cli` (the template-rendered generator command);
  - `pack_workflow` (`cwltool --pack`);
  - `validate_workflow`;
  - the `sed` processes themselves.

  Only the textual effect of the two `sed` expressions is modelled, as string functions. Their process failures (`RuntimeError`) are I/O.
- `shutil.copy2`, `os.rename` and `with_stem`: these are file operations.
- `Path.resolve()`: it depends on the file system. A step's `run` is a plain string, and `to_cwl` requires it to be set.
- Resource bounds may be floats in the source. Here they are optional integers, used only for their truthiness; no arithmetic is done on them.
- Config.WorkflowInputFromDict, Config.StepInputFromDict, Config.StepOutputFromDict, Config.StepFromDict, Config.WorkflowOutputFromDict, Config.ResourcesFromDict: Python stores any value under an annotated key. The model instead rejects a value of the wrong type (for example a number where a string is annotated) with `WrongType`, and a `for` over a non-list, non-falsy value likewise.
- Yaml.Value has no float, date or other scalar beyond null, booleans, integers and strings. A float `default:` on a workflow or step input, which the source passes through untouched, cannot be represented.
- Config.NewStep: `Path(script)` and `Path(requirements)` normalise the path (for example `a//b` becomes `a/b`); the model keeps the given string.
- Config.RunPath: joins strings with `/`, while `set_step_run` uses pathlib's `/`. The two differ when the step id is empty or absolute: pathlib then collapses the separators or replaces the directory.
- Config.ResourcesFromDict: a `resources` value that is not a dictionary makes Python's `.get` raise an attribute error; the model reports it as `WrongType`.
- Config.WorkflowConfig.SetStepRun: the source assigns `run` on shared `StepConfig` objects; the model replaces each step value in the `steps` sequence, so aliasing of a step object from elsewhere is not captured.
- ModifyCli.CommandLineTool.RetypeInputs: the source mutates the matched input object in place; the model replaces the element of the `inputs` sequence, so aliasing of input objects is not captured.
- PackedCleanup.CleanupPacked requires that `wf_id` holds no `/`, `&`, `\` or line end, which `sed` would read specially, and no `'`, which closes the shell quoting of the `sed` expression (bash would then change the expression or fail).
- PackedCleanup.StripCwl: `sed` works line by line; the model works on the whole text and ends every run at a line end as well as at a space, which is what editing each line separately amounts to.
- DockerCli.GenerateDockerCli: `baseCommand` is passed as a single string in the source; the model stores a one-element list.
- eoap_gen/cli.py (command-line orchestration), eoap_gen/dockerfile.py and eoap_gen/template.py (template rendering), and eoap_gen/utils.py (directories and the `GITHUB_OUTPUT` file) are not part of this model.

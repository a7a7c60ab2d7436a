/**
 * The configuration model: one record per configuration class, the
 * constructors with their defaulting rules, `from_dict` over the loaded
 * YAML, `to_cwl` into CWL v1.0 Workflow records, and the workflow object
 * whose steps receive their `run` path in a second pass.
 */
module Config {
  import opened Wrappers
  import opened Text
  import opened Yaml
  import opened Cwl
  import opened Indices

  // ---------------------------------------------------------------- label and doc

  /**
   * The label/doc pair `(rl, rd)` obeys the rule `label or doc or id` /
   * `doc or label or id`: a given value is kept, a missing one takes the
   * other's value, and with neither both fall back to the id.
   */
  predicate MutuallyDefaulted(label_: Option<string>, doc: Option<string>, id: string, rl: string, rd: string) {
    && (Given(label_) ==> rl == label_.value)
    && (Given(doc) ==> rd == doc.value)
    && (!Given(label_) ==> rl == rd)
    && (!Given(doc) ==> rd == rl)
    && (!Given(label_) && !Given(doc) ==> rl == id)
  }

  /** The label and doc an input or a workflow receives from its optional label, doc and id. */
  function LabelAndDoc(label_: Option<string>, doc: Option<string>, id: string): (r: (string, string))
    ensures MutuallyDefaulted(label_, doc, id, r.0, r.1)
    ensures id != "" ==> r.0 != "" && r.1 != ""
  {
    (Or(label_, Or(doc, id)), Or(doc, Or(label_, id)))
  }

  // ---------------------------------------------------------------- workflow inputs

  datatype WorkflowInputConfig = WorkflowInputConfig(
    id: string,
    type_: string,
    label_: string,
    doc: string,
    default: Option<Value>)

  /** `WorkflowInputConfig.__init__`. */
  function NewWorkflowInput(id: string, type_: Option<string>, label_: Option<string>, doc: Option<string>,
                            default: Option<Value>): (r: WorkflowInputConfig)
    ensures r.id == id && r.default == default
    ensures Given(type_) ==> r.type_ == type_.value
    ensures !Given(type_) ==> r.type_ == "string"
    ensures MutuallyDefaulted(label_, doc, id, r.label_, r.doc)
    ensures id != "" ==> r.label_ != "" && r.doc != ""
  {
    var ld := LabelAndDoc(label_, doc, id);
    WorkflowInputConfig(id, Or(type_, "string"), ld.0, ld.1, default)
  }

  /** `WorkflowInputConfig.from_dict`: `id` is required, the other keys optional. */
  function WorkflowInputFromDict(d: Mapping): (r: Result<WorkflowInputConfig, ConfigError>)
    ensures r.Success? <==>
      RequireStr(d, "id").Success? && GetStr(d, "type").Success? && GetStr(d, "label").Success?
      && GetStr(d, "doc").Success?
    ensures r.Success? ==> r.value == NewWorkflowInput(d["id"].s, GetStr(d, "type").value,
      GetStr(d, "label").value, GetStr(d, "doc").value, Get(d, "default"))
  {
    var id :- RequireStr(d, "id");
    var type_ :- GetStr(d, "type");
    var label_ :- GetStr(d, "label");
    var doc :- GetStr(d, "doc");
    Success(NewWorkflowInput(id, type_, label_, doc, Get(d, "default")))
  }

  /** `WorkflowInputConfig.to_cwl`: every field is carried over under its CWL name. */
  function WorkflowInputToCwl(i: WorkflowInputConfig): (r: InputParameter)
    ensures r.id == i.id && r.label_ == i.label_ && r.doc == i.doc
    ensures r.type_ == i.type_ && r.default == i.default
  {
    InputParameter(i.id, i.label_, i.doc, i.type_, i.default)
  }

  // ---------------------------------------------------------------- workflow outputs

  datatype WorkflowOutputConfig = WorkflowOutputConfig(id: string, type_: string, source: seq<string>)

  /** The `source` argument: one reference or a list of them. */
  datatype SourceArg = SourceOne(ref: string) | SourceList(refs: seq<string>)

  /** `WorkflowOutputConfig.__init__`: the source is always stored as a list. */
  function NewWorkflowOutput(id: string, source: SourceArg, type_: Option<string>): (r: WorkflowOutputConfig)
    ensures r.id == id
    ensures Given(type_) ==> r.type_ == type_.value
    ensures !Given(type_) ==> r.type_ == "Directory"
    ensures source.SourceList? ==> r.source == source.refs
    ensures source.SourceOne? ==> r.source == [source.ref]
  {
    WorkflowOutputConfig(id, Or(type_, "Directory"), match source case SourceOne(s) => [s] case SourceList(xs) => xs)
  }

  /** `d["source"]` as a single reference or a list of references. */
  function SourceFromDict(d: Mapping): (r: Result<SourceArg, ConfigError>)
    ensures "source" !in d ==> r == Failure(MissingKey("source"))
    ensures r.Success? <==> "source" in d && (d["source"].Str? || (d["source"].List? && AllStrings(d["source"].items)))
    ensures r.Success? && d["source"].Str? ==> r.value == SourceOne(d["source"].s)
    ensures r.Success? && d["source"].List? ==> r.value == SourceList(Strings(d["source"].items))
  {
    if "source" !in d then Failure(MissingKey("source"))
    else match d["source"]
      case Str(s) => Success(SourceOne(s))
      case List(xs) => if AllStrings(xs) then Success(SourceList(Strings(xs))) else Failure(WrongType("source"))
      case _ => Failure(WrongType("source"))
  }

  /** `WorkflowOutputConfig.from_dict`. */
  function WorkflowOutputFromDict(d: Mapping): (r: Result<WorkflowOutputConfig, ConfigError>)
    ensures r.Success? <==>
      RequireStr(d, "id").Success? && GetStr(d, "type").Success? && SourceFromDict(d).Success?
    ensures r.Success? ==>
      r.value == NewWorkflowOutput(d["id"].s, SourceFromDict(d).value, GetStr(d, "type").value)
  {
    var id :- RequireStr(d, "id");
    var type_ :- GetStr(d, "type");
    var source :- SourceFromDict(d);
    Success(NewWorkflowOutput(id, source, type_))
  }

  /** `WorkflowOutputConfig.to_cwl`: the source list becomes `outputSource`. */
  function WorkflowOutputToCwl(o: WorkflowOutputConfig): (r: WorkflowOutputParameter)
    ensures r.id == o.id && r.outputSource == o.source && r.type_ == o.type_
  {
    WorkflowOutputParameter(o.id, o.source, o.type_)
  }

  // ---------------------------------------------------------------- step inputs and outputs

  datatype StepInputConfig = StepInputConfig(
    id: string,
    source: Option<string>,
    scatter: bool,
    valueFrom: Option<string>,
    default: Option<Value>,
    type_: Option<string>)

  /** `d.get("scatter", False)`, used only for its truthiness. */
  function ScatterFlag(d: Mapping): (r: Result<bool, ConfigError>)
    ensures r.Success? <==> Get(d, "scatter").None? || d["scatter"].Bool?
    ensures r.Success? ==> (r.value <==> Get(d, "scatter").Some? && d["scatter"].b)
  {
    match Get(d, "scatter")
    case None => Success(false)
    case Some(v) => if v.Bool? then Success(v.b) else Failure(WrongType("scatter"))
  }

  /** `StepInputConfig.from_dict`: only `id` is required; `scatter` defaults to false. */
  function StepInputFromDict(d: Mapping): (r: Result<StepInputConfig, ConfigError>)
    ensures "id" !in d ==> r == Failure(MissingKey("id"))
    ensures r.Success? <==>
      && RequireStr(d, "id").Success? && GetStr(d, "source").Success? && ScatterFlag(d).Success?
      && GetStr(d, "value_from").Success? && GetStr(d, "type").Success?
    ensures r.Success? ==> r.value == StepInputConfig(d["id"].s, GetStr(d, "source").value, ScatterFlag(d).value,
      GetStr(d, "value_from").value, Get(d, "default"), GetStr(d, "type").value)
  {
    var id :- RequireStr(d, "id");
    var source :- GetStr(d, "source");
    var scatter :- ScatterFlag(d);
    var valueFrom :- GetStr(d, "value_from");
    var type_ :- GetStr(d, "type");
    Success(StepInputConfig(id, source, scatter, valueFrom, Get(d, "default"), type_))
  }

  /**
   * `StepInputConfig.to_cwl`: id, source, `valueFrom` and default are carried
   * over; the scatter flag and the type are not part of the step input.
   */
  function StepInputToCwl(i: StepInputConfig): (r: WorkflowStepInput)
    ensures r.id == i.id && r.source == i.source && r.valueFrom == i.valueFrom && r.default == i.default
  {
    WorkflowStepInput(i.id, i.source, i.valueFrom, i.default)
  }

  datatype StepOutputConfig = StepOutputConfig(id: string, params: Params)

  /** `StepOutputConfig.from_dict`: the params are the raw entry without its `id` key. */
  function StepOutputFromDict(d: Mapping): (r: Result<StepOutputConfig, ConfigError>)
    ensures r.Success? <==> "id" in d && d["id"].Str?
    ensures r.Success? ==> r.value.id == d["id"].s
    ensures r.Success? ==> r.value.params.Keys == d.Keys - {"id"}
    ensures r.Success? ==> forall k :: k in r.value.params ==> r.value.params[k] == d[k]
  {
    var id :- RequireStr(d, "id");
    Success(StepOutputConfig(id, map k | k in d && k != "id" :: d[k]))
  }

  // ---------------------------------------------------------------- lists of entries

  /** A value iterated by a `for` over a list: lists give their items, empty strings and dicts nothing. */
  function Iterate(v: Value, key: string): (r: Result<seq<Value>, ConfigError>)
    ensures v.List? ==> r == Success(v.items)
    ensures r.Success? ==> v.List? || r.value == []
    ensures !Truthy(v) && !v.Null? && !v.Bool? && !v.Num? ==> r == Success([])
  {
    match v
    case List(xs) => Success(xs)
    case Str(s) => if s == "" then Success([]) else Failure(WrongType(key))
    case Dict(m) => if m == map[] then Success([]) else Failure(WrongType(key))
    case _ => Failure(WrongType(key))
  }

  /** `[f(x) for x in xs]` where each `x` must be a dictionary and the first failure is raised. */
  function MapDicts<T>(xs: seq<Value>, key: string, f: Mapping -> Result<T, ConfigError>): (r: Result<seq<T>, ConfigError>)
    ensures r.Success? <==> forall i :: 0 <= i < |xs| ==> xs[i].Dict? && f(xs[i].fields).Success?
    ensures r.Success? ==> |r.value| == |xs| && forall i :: 0 <= i < |xs| ==> r.value[i] == f(xs[i].fields).value
  {
    if xs == [] then Success([])
    else if !xs[0].Dict? then Failure(WrongType(key))
    else
      var x :- f(xs[0].fields);
      var rest :- MapDicts(xs[1..], key, f);
      Success([x] + rest)
  }

  /** `[... for x in d.get(key)]` guarded by `if d.get(key):` — a missing or falsy value gives nothing. */
  function OptionalEntries<T>(d: Mapping, key: string, f: Mapping -> Result<T, ConfigError>): (r: Result<seq<T>, ConfigError>)
    ensures (Get(d, key).None? || !Truthy(d[key])) ==> r == Success([])
    ensures Get(d, key).Some? && d[key].List? ==> r == MapDicts(d[key].items, key, f)
  {
    match Get(d, key)
    case None => Success([])
    case Some(v) =>
      if !Truthy(v) then Success([])
      else
        var xs :- Iterate(v, key);
        MapDicts(xs, key, f)
  }

  /** `[... for x in d[key]]` — the key is required. */
  function RequiredEntries<T>(d: Mapping, key: string, f: Mapping -> Result<T, ConfigError>): (r: Result<seq<T>, ConfigError>)
    ensures key !in d ==> r == Failure(MissingKey(key))
    ensures key in d && d[key].List? ==> r == MapDicts(d[key].items, key, f)
  {
    if key !in d then Failure(MissingKey(key))
    else
      var xs :- Iterate(d[key], key);
      MapDicts(xs, key, f)
  }

  // ---------------------------------------------------------------- steps

  datatype StepConfig = StepConfig(
    id: string,
    script: Option<string>,
    requirements: Option<string>,
    aptInstall: Option<seq<string>>,
    dockerImage: Option<string>,
    command: Option<string>,
    inputs: seq<StepInputConfig>,
    outputs: seq<StepOutputConfig>,
    scatterIds: Option<seq<string>>,
    scatterMethod: Option<string>,
    conda: Option<seq<string>>,
    pythonVersion: Option<string>,
    run: Option<string>)

  /** Python truthiness of an optional list (`conda`, `scatter_ids`): present and non-empty. */
  predicate NonEmpty<T>(o: Option<seq<T>>) {
    o.Some? && o.value != []
  }

  /** `[inp.id_ for inp in inputs if inp.scatter]`. */
  function ScatterIds(inputs: seq<StepInputConfig>): seq<string> {
    if inputs == [] then []
    else (if inputs[0].scatter then [inputs[0].id] else []) + ScatterIds(inputs[1..])
  }

  predicate IsScattered(i: StepInputConfig) {
    i.scatter
  }

  /**
   * The scatter ids are the ids of the scattered inputs, one per scattered
   * input and in declaration order; in particular each names a declared input.
   */
  lemma {:induction false} ScatterIdsSpec(inputs: seq<StepInputConfig>)
    ensures var idx := IndicesWhere(inputs, IsScattered, |inputs|);
      && (forall j :: 0 <= j < |idx| ==> idx[j] < |inputs|)
      && |ScatterIds(inputs)| == |idx|
      && (forall j :: 0 <= j < |idx| ==> ScatterIds(inputs)[j] == inputs[idx[j]].id)
    ensures forall x :: x in ScatterIds(inputs) ==> exists k :: 0 <= k < |inputs| && inputs[k].scatter && inputs[k].id == x
  {
    if inputs != [] {
      var n := |inputs|;
      var init := inputs[..n - 1];
      ScatterIdsSnoc(init, inputs[n - 1]);
      assert init + [inputs[n - 1]] == inputs;
      ScatterIdsSpec(init);
      IndicesWherePrefix(inputs, IsScattered, n - 1);
      IndicesWhereSpec(inputs, IsScattered, |inputs|);
    }
  }

  lemma {:induction false} ScatterIdsSnoc(init: seq<StepInputConfig>, last: StepInputConfig)
    ensures ScatterIds(init + [last]) == ScatterIds(init) + (if last.scatter then [last.id] else [])
  {
    if init == [] {
      assert init + [last] == [last];
    } else {
      assert (init + [last])[1..] == init[1..] + [last];
      ScatterIdsSnoc(init[1..], last);
    }
  }

  /**
   * `StepConfig.__init__`: empty paths are dropped, and a step that scatters
   * over some input without naming a method gets `"dotproduct"`; otherwise the
   * given method (possibly none) is kept. `run` is not set yet.
   */
  function NewStep(id: string, inputs: seq<StepInputConfig>, outputs: seq<StepOutputConfig>,
                   script: Option<string>, requirements: Option<string>, aptInstall: Option<seq<string>>,
                   dockerImage: Option<string>, command: Option<string>, scatterIds: Option<seq<string>>,
                   scatterMethod: Option<string>, conda: Option<seq<string>>, pythonVersion: Option<string>): (r: StepConfig)
    ensures r.id == id && r.inputs == inputs && r.outputs == outputs && r.scatterIds == scatterIds
    ensures r.dockerImage == dockerImage && r.command == command && r.conda == conda
    ensures r.script.Some? <==> Given(script)
    ensures Given(script) ==> r.script == script
    ensures r.requirements.Some? <==> Given(requirements)
    ensures Given(requirements) ==> r.requirements == requirements
    ensures r.aptInstall == aptInstall && r.pythonVersion == pythonVersion
    ensures NonEmpty(scatterIds) && !Given(scatterMethod) ==> r.scatterMethod == Some("dotproduct")
    ensures !(NonEmpty(scatterIds) && !Given(scatterMethod)) ==> r.scatterMethod == scatterMethod
    ensures r.run.None?
  {
    StepConfig(
      id,
      if Given(script) then script else None,
      if Given(requirements) then requirements else None,
      aptInstall, dockerImage, command, inputs, outputs, scatterIds,
      if NonEmpty(scatterIds) && !Given(scatterMethod) then Some("dotproduct") else scatterMethod,
      conda, pythonVersion, None)
  }

  /** The inputs of a step entry, and the scatter ids derived from them (none when there are no inputs). */
  function StepInputsFromDict(d: Mapping): (r: Result<(seq<StepInputConfig>, Option<seq<string>>), ConfigError>)
    ensures r.Success? <==> OptionalEntries(d, "inputs", StepInputFromDict).Success?
    ensures r.Success? ==> r.value.0 == OptionalEntries(d, "inputs", StepInputFromDict).value
    ensures r.Success? ==> (r.value.1.None? <==> Get(d, "inputs").None? || !Truthy(d["inputs"]))
    ensures r.Success? && r.value.1.Some? ==> r.value.1.value == ScatterIds(r.value.0)
  {
    match Get(d, "inputs")
    case None => Success(([], None))
    case Some(v) =>
      if !Truthy(v) then Success(([], None))
      else
        var inputs :- OptionalEntries(d, "inputs", StepInputFromDict);
        Success((inputs, Some(ScatterIds(inputs))))
  }

  /** The optional string and list keys of a step entry hold values of the annotated types. */
  predicate StepKeysTyped(d: Mapping) {
    && GetStr(d, "script").Success? && GetStr(d, "requirements").Success?
    && GetStrList(d, "apt_install").Success? && GetStr(d, "docker_image").Success?
    && GetStr(d, "command").Success? && GetStr(d, "scatter_method").Success?
    && GetStrList(d, "conda").Success? && GetStr(d, "python_version").Success?
  }

  /** `StepConfig.from_dict`. */
  function StepFromDict(d: Mapping): (r: Result<StepConfig, ConfigError>)
    ensures r.Success? <==>
      && StepInputsFromDict(d).Success? && OptionalEntries(d, "outputs", StepOutputFromDict).Success?
      && RequireStr(d, "id").Success? && StepKeysTyped(d)
    ensures r.Success? ==> r.value.inputs == StepInputsFromDict(d).value.0
    ensures r.Success? ==> r.value.scatterIds == StepInputsFromDict(d).value.1
    ensures r.Success? ==> r.value.outputs == OptionalEntries(d, "outputs", StepOutputFromDict).value
    ensures r.Success? ==> r.value == NewStep(d["id"].s, r.value.inputs, r.value.outputs,
      GetStr(d, "script").value, GetStr(d, "requirements").value, GetStrList(d, "apt_install").value,
      GetStr(d, "docker_image").value, GetStr(d, "command").value, r.value.scatterIds,
      GetStr(d, "scatter_method").value, GetStrList(d, "conda").value, GetStr(d, "python_version").value)
    ensures "id" !in d && StepInputsFromDict(d).Success? && OptionalEntries(d, "outputs", StepOutputFromDict).Success?
      ==> r == Failure(MissingKey("id"))
  {
    var ins :- StepInputsFromDict(d);
    var outputs :- OptionalEntries(d, "outputs", StepOutputFromDict);
    var id :- RequireStr(d, "id");
    var script :- GetStr(d, "script");
    var requirements :- GetStr(d, "requirements");
    var aptInstall :- GetStrList(d, "apt_install");
    var dockerImage :- GetStr(d, "docker_image");
    var command :- GetStr(d, "command");
    var scatterMethod :- GetStr(d, "scatter_method");
    var conda :- GetStrList(d, "conda");
    var pythonVersion :- GetStr(d, "python_version");
    Success(NewStep(id, ins.0, outputs, script, requirements, aptInstall, dockerImage, command, ins.1,
                    scatterMethod, conda, pythonVersion))
  }

  /**
   * A step read from the configuration only ever scatters over its own
   * scattered inputs, and then with `"dotproduct"` unless it names a method.
   */
  lemma StepFromDictScatter(d: Mapping)
    requires StepFromDict(d).Success?
    ensures var s := StepFromDict(d).value;
      && (s.scatterIds.Some? ==> forall x :: x in s.scatterIds.value ==>
            exists k :: 0 <= k < |s.inputs| && s.inputs[k].scatter && s.inputs[k].id == x)
      && (s.inputs == [] ==> !NonEmpty(s.scatterIds))
      && (((exists k :: 0 <= k < |s.inputs| && s.inputs[k].scatter) && !Given(GetStr(d, "scatter_method").value))
          ==> s.scatterMethod == Some("dotproduct"))
  {
    var s := StepFromDict(d).value;
    ScatterIdsSpec(s.inputs);
    if s.inputs == [] {
      assert ScatterIds(s.inputs) == [];
    }
    if k :| 0 <= k < |s.inputs| && s.inputs[k].scatter {
      IndicesWhereSpec(s.inputs, IsScattered, |s.inputs|);
      assert k in IndicesWhere(s.inputs, IsScattered, |s.inputs|);
      assert Truthy(d["inputs"]);
    }
  }

  /**
   * `StepConfig.to_cwl`: the step keeps its id and run path, maps its inputs
   * and outputs one to one and in order, and declares a scatter only when it
   * has a non-empty list of scatter ids.
   */
  function StepToCwl(s: StepConfig): (w: WorkflowStep)
    requires s.run.Some?
    ensures w.id == s.id && w.run == s.run.value
    ensures |w.in_| == |s.inputs| && forall k :: 0 <= k < |s.inputs| ==> w.in_[k] == StepInputToCwl(s.inputs[k])
    ensures |w.out| == |s.outputs| && forall k :: 0 <= k < |s.outputs| ==> w.out[k].id == s.outputs[k].id
    ensures w.scatter.Some? <==> NonEmpty(s.scatterIds)
    ensures w.scatter.Some? ==> w.scatter.value == s.scatterIds.value
    ensures w.scatterMethod == s.scatterMethod
  {
    WorkflowStep(
      s.id,
      s.run.value,
      seq(|s.inputs|, k requires 0 <= k < |s.inputs| => StepInputToCwl(s.inputs[k])),
      seq(|s.outputs|, k requires 0 <= k < |s.outputs| => WorkflowStepOutput(s.outputs[k].id)),
      if NonEmpty(s.scatterIds) then s.scatterIds else None,
      s.scatterMethod)
  }

  /** Where `set_step_run` points a step: `<cli_dir>/<id>/<id>.cwl`. */
  function RunPath(cliDir: string, id: string): string {
    cliDir + "/" + id + "/" + id + ".cwl"
  }

  // ---------------------------------------------------------------- the workflow

  /** The four optional resource bounds of a workflow. */
  datatype Resources = Resources(ramMin: Option<int>, ramMax: Option<int>, coresMin: Option<int>, coresMax: Option<int>)

  /** Python truthiness of an optional number: present and non-zero. */
  predicate Bound(o: Option<int>) {
    o.Some? && o.value != 0
  }

  predicate AnyBound(r: Resources) {
    Bound(r.ramMin) || Bound(r.ramMax) || Bound(r.coresMin) || Bound(r.coresMax)
  }

  /** `d.get("resources", {})` and the four `resources.get(...)` look-ups. */
  function ResourcesFromDict(d: Mapping): (r: Result<Resources, ConfigError>)
    ensures "resources" !in d ==> r == Success(Resources(None, None, None, None))
    ensures "resources" in d && !d["resources"].Dict? ==> r == Failure(WrongType("resources"))
    ensures "resources" in d && d["resources"].Dict? ==>
      var f := d["resources"].fields;
      && (r.Success? <==> GetNum(f, "ram_min").Success? && GetNum(f, "ram_max").Success?
                          && GetNum(f, "cores_min").Success? && GetNum(f, "cores_max").Success?)
      && (r.Success? ==> r.value == Resources(GetNum(f, "ram_min").value, GetNum(f, "ram_max").value,
                                              GetNum(f, "cores_min").value, GetNum(f, "cores_max").value))
  {
    var res := if "resources" in d then d["resources"] else Dict(map[]);
    if !res.Dict? then Failure(WrongType("resources"))
    else
      var ramMin :- GetNum(res.fields, "ram_min");
      var ramMax :- GetNum(res.fields, "ram_max");
      var coresMin :- GetNum(res.fields, "cores_min");
      var coresMax :- GetNum(res.fields, "cores_max");
      Success(Resources(ramMin, ramMax, coresMin, coresMax))
  }

  /** The requirements of the workflow document: scatter support, then resources when any bound is truthy. */
  function WorkflowRequirements(res: Resources): (r: seq<Requirement>)
    ensures 1 <= |r| <= 2 && r[0] == ScatterFeatureRequirement
    ensures |r| == 2 <==> AnyBound(res)
    ensures |r| == 2 ==> r[1] == ResourceRequirement(res.ramMin, res.ramMax, res.coresMin, res.coresMax)
  {
    [ScatterFeatureRequirement]
    + (if AnyBound(res) then [ResourceRequirement(res.ramMin, res.ramMax, res.coresMin, res.coresMax)] else [])
  }

  /** `WorkflowConfig`: its steps are updated in place once their run paths are known. */
  class WorkflowConfig {
    const id: string
    const doc: string
    const label_: string
    const inputs: seq<WorkflowInputConfig>
    const outputs: seq<WorkflowOutputConfig>
    var steps: seq<StepConfig>
    const resources: Resources

    /** `WorkflowConfig.__init__`. */
    constructor (id: string, inputs: seq<WorkflowInputConfig>, outputs: seq<WorkflowOutputConfig>,
                 steps: seq<StepConfig>, doc: Option<string>, label_: Option<string>, resources: Resources)
      ensures this.id == id && this.inputs == inputs && this.outputs == outputs
      ensures this.steps == steps && this.resources == resources
      ensures MutuallyDefaulted(label_, doc, id, this.label_, this.doc)
      ensures id != "" ==> this.label_ != "" && this.doc != ""
    {
      var ld := LabelAndDoc(label_, doc, id);
      this.id := id;
      this.doc := ld.1;
      this.label_ := ld.0;
      this.inputs := inputs;
      this.outputs := outputs;
      this.steps := steps;
      this.resources := resources;
    }

    /** `WorkflowConfig.from_dict`: `outputs`, `steps` and `id` are required. */
    static method FromDict(d: Mapping) returns (r: Result<WorkflowConfig, ConfigError>)
      ensures r.Success? <==>
        && OptionalEntries(d, "inputs", WorkflowInputFromDict).Success?
        && RequiredEntries(d, "outputs", WorkflowOutputFromDict).Success?
        && RequiredEntries(d, "steps", StepFromDict).Success?
        && RequireStr(d, "id").Success? && GetStr(d, "doc").Success? && GetStr(d, "label").Success?
        && ResourcesFromDict(d).Success?
      ensures r.Success? ==> fresh(r.value)
      ensures r.Success? ==>
        && r.value.id == d["id"].s
        && r.value.inputs == OptionalEntries(d, "inputs", WorkflowInputFromDict).value
        && r.value.outputs == RequiredEntries(d, "outputs", WorkflowOutputFromDict).value
        && r.value.steps == RequiredEntries(d, "steps", StepFromDict).value
        && r.value.resources == ResourcesFromDict(d).value
        && MutuallyDefaulted(GetStr(d, "label").value, GetStr(d, "doc").value, d["id"].s, r.value.label_, r.value.doc)
    {
      var inputs := OptionalEntries(d, "inputs", WorkflowInputFromDict);
      if inputs.Failure? { return Failure(inputs.error); }
      var outputs := RequiredEntries(d, "outputs", WorkflowOutputFromDict);
      if outputs.Failure? { return Failure(outputs.error); }
      var steps := RequiredEntries(d, "steps", StepFromDict);
      if steps.Failure? { return Failure(steps.error); }
      var id := RequireStr(d, "id");
      if id.Failure? { return Failure(id.error); }
      var doc := GetStr(d, "doc");
      if doc.Failure? { return Failure(doc.error); }
      var label_ := GetStr(d, "label");
      if label_.Failure? { return Failure(label_.error); }
      var resources := ResourcesFromDict(d);
      if resources.Failure? { return Failure(resources.error); }
      var w := new WorkflowConfig(id.value, inputs.value, outputs.value, steps.value, doc.value, label_.value,
                                  resources.value);
      r := Success(w);
    }

    /** Every step has its run path, as `to_cwl` needs. */
    predicate Resolved()
      reads this
    {
      forall k :: 0 <= k < |steps| ==> steps[k].run.Some?
    }

    /**
     * `set_step_run`: every step's `run` becomes `<cli_dir>/<id>/<id>.cwl`;
     * no other field, no step count and no step order changes.
     */
    method SetStepRun(cliDir: string)
      modifies this
      ensures |steps| == |old(steps)|
      ensures forall k :: 0 <= k < |steps| ==>
        steps[k] == old(steps[k]).(run := Some(RunPath(cliDir, old(steps[k]).id)))
      ensures Resolved()
    {
      var k := 0;
      while k < |steps|
        invariant 0 <= k <= |steps| == |old(steps)|
        invariant forall j :: 0 <= j < k ==> steps[j] == old(steps[j]).(run := Some(RunPath(cliDir, old(steps[j]).id)))
        invariant forall j :: k <= j < |steps| ==> steps[j] == old(steps[j])
      {
        steps := steps[k := steps[k].(run := Some(RunPath(cliDir, steps[k].id)))];
        k := k + 1;
      }
    }

    /**
     * `WorkflowConfig.to_cwl`: the workflow document keeps the id, label and
     * doc, maps inputs, outputs and steps one to one and in order, and its
     * requirements are scatter support followed by one resource requirement
     * exactly when some bound is truthy (a bound of 0 counts as absent).
     */
    function ToCwl(): (w: Workflow)
      reads this
      requires Resolved()
      ensures w.id == id && w.doc == doc && w.label_ == label_ && w.cwlVersion == CwlVersion
      ensures |w.inputs| == |inputs| && forall k :: 0 <= k < |inputs| ==> w.inputs[k] == WorkflowInputToCwl(inputs[k])
      ensures |w.outputs| == |outputs| && forall k :: 0 <= k < |outputs| ==> w.outputs[k] == WorkflowOutputToCwl(outputs[k])
      ensures |w.steps| == |steps| && forall k :: 0 <= k < |steps| ==> w.steps[k] == StepToCwl(steps[k])
      ensures |w.requirements| >= 1 && w.requirements[0] == ScatterFeatureRequirement
      ensures |w.requirements| == 2 <==> AnyBound(resources)
      ensures |w.requirements| <= 2
      ensures |w.requirements| == 2 ==>
        w.requirements[1] == ResourceRequirement(resources.ramMin, resources.ramMax, resources.coresMin, resources.coresMax)
    {
      Workflow(
        id, doc, label_,
        seq(|inputs|, k requires 0 <= k < |inputs| => WorkflowInputToCwl(inputs[k])),
        seq(|outputs|, k requires 0 <= k < |outputs| => WorkflowOutputToCwl(outputs[k])),
        seq(|steps|, k requires 0 <= k < |steps| && Resolved() reads this => StepToCwl(steps[k])),
        CwlVersion,
        WorkflowRequirements(resources))
    }
  }
}

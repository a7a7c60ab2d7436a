/**
 * Patching the tool that the external generator produced for a script
 * step: the loaded CommandLineTool gets the image's requirements, the
 * command that runs the packaged script, and the input types declared in
 * the configuration.
 */
module ModifyCli {
  import opened Wrappers
  import opened Text
  import opened Cwl
  import opened Config

  /** The micromamba entrypoint that must run first in a conda image. */
  const EntrypointScript := "/usr/local/bin/_entrypoint.sh"

  /** A step input that carries a type override (`if inp.type_:`). */
  predicate Typed(s: StepInputConfig) {
    Given(s.type_)
  }

  /** The text a tool input id must contain to be the target of step input `s`. */
  function TargetKey(s: StepInputConfig): string {
    "#" + s.id
  }

  /** The first tool input at or after `from` whose id contains `key`. */
  function TargetFrom(inputs: seq<CommandInputParameter>, key: string, from: nat): (r: Option<nat>)
    requires from <= |inputs|
    decreases |inputs| - from
    ensures r.Some? ==> from <= r.value < |inputs| && Contains(inputs[r.value].id, key)
    ensures r.Some? ==> forall k :: from <= k < r.value ==> !Contains(inputs[k].id, key)
    ensures r.None? ==> forall k :: from <= k < |inputs| ==> !Contains(inputs[k].id, key)
  {
    if from == |inputs| then None
    else if Contains(inputs[from].id, key) then Some(from)
    else TargetFrom(inputs, key, from + 1)
  }

  /** `next((i for i in tool_obj.inputs if key in i.id), None)`, as an index. */
  function Target(inputs: seq<CommandInputParameter>, key: string): Option<nat> {
    TargetFrom(inputs, key, 0)
  }

  /** Two input lists with the same ids have the same targets. */
  lemma {:induction false} TargetFromSameIds(a: seq<CommandInputParameter>, b: seq<CommandInputParameter>,
                                             key: string, from: nat)
    requires |a| == |b| && from <= |a| && forall k :: 0 <= k < |a| ==> a[k].id == b[k].id
    ensures TargetFrom(a, key, from) == TargetFrom(b, key, from)
    decreases |a| - from
  {
    if from < |a| {
      TargetFromSameIds(a, b, key, from + 1);
    }
  }

  /** The first `n` step inputs that carry a type all have a target. */
  predicate AllTargeted(inputs: seq<CommandInputParameter>, sins: seq<StepInputConfig>, n: nat)
    requires n <= |sins|
  {
    forall j :: 0 <= j < n && Typed(sins[j]) ==> Target(inputs, TargetKey(sins[j])).Some?
  }

  /** Step input `j` is the first typed one without a target. */
  predicate FirstUntargeted(inputs: seq<CommandInputParameter>, sins: seq<StepInputConfig>, j: nat) {
    j < |sins| && Typed(sins[j]) && Target(inputs, TargetKey(sins[j])).None? && AllTargeted(inputs, sins, j)
  }

  /**
   * The type the first `n` step inputs leave on tool input `k`: that of the
   * last typed one whose target is `k`, if any.
   */
  function LastRetype(inputs: seq<CommandInputParameter>, sins: seq<StepInputConfig>, n: nat, k: nat): Option<string>
    requires n <= |sins|
  {
    if n == 0 then None
    else if Typed(sins[n - 1]) && Target(inputs, TargetKey(sins[n - 1])) == Some(k) then sins[n - 1].type_
    else LastRetype(inputs, sins, n - 1, k)
  }

  /**
   * The tool inputs once the first `n` step inputs have been applied: each
   * input takes the type `LastRetype` gives it and is otherwise unchanged.
   */
  function Retyped(inputs: seq<CommandInputParameter>, sins: seq<StepInputConfig>, n: nat): (r: seq<CommandInputParameter>)
    requires n <= |sins|
    ensures |r| == |inputs|
    ensures forall k :: 0 <= k < |r| ==> r[k] == inputs[k].(type_ := r[k].type_)
  {
    seq(|inputs|, k requires 0 <= k < |inputs| =>
      match LastRetype(inputs, sins, n, k)
      case Some(t) => inputs[k].(type_ := t)
      case None => inputs[k])
  }

  /** Applying one more step input: a typed one retypes its target; an untyped one changes nothing. */
  lemma RetypedStep(inputs: seq<CommandInputParameter>, sins: seq<StepInputConfig>, n: nat)
    requires n < |sins|
    ensures !Typed(sins[n]) ==> Retyped(inputs, sins, n + 1) == Retyped(inputs, sins, n)
    ensures Typed(sins[n]) && Target(inputs, TargetKey(sins[n])).Some? ==>
      var k := Target(inputs, TargetKey(sins[n])).value;
      Retyped(inputs, sins, n + 1) == Retyped(inputs, sins, n)[k := Retyped(inputs, sins, n)[k].(type_ := sins[n].type_.value)]
  {
  }

  /** A tool input no typed step input targets keeps its type. */
  lemma {:induction false} LastRetypeNone(inputs: seq<CommandInputParameter>, sins: seq<StepInputConfig>, n: nat, k: nat)
    requires n <= |sins|
    requires forall j :: 0 <= j < n && Typed(sins[j]) ==> Target(inputs, TargetKey(sins[j])) != Some(k)
    ensures LastRetype(inputs, sins, n, k).None?
  {
    if n > 0 {
      LastRetypeNone(inputs, sins, n - 1, k);
    }
  }

  /** The typed step input that targets `k` last decides its type. */
  lemma {:induction false} LastRetypeWins(inputs: seq<CommandInputParameter>, sins: seq<StepInputConfig>, n: nat,
                                          j: nat, k: nat)
    requires j < n <= |sins| && Typed(sins[j]) && Target(inputs, TargetKey(sins[j])) == Some(k)
    requires forall j' :: j < j' < n && Typed(sins[j']) ==> Target(inputs, TargetKey(sins[j'])) != Some(k)
    ensures LastRetype(inputs, sins, n, k) == sins[j].type_
  {
    if n - 1 > j {
      LastRetypeWins(inputs, sins, n - 1, j, k);
    }
  }

  /**
   * The retyping loop as a whole: a tool input keeps everything but its
   * type; its type is that of the last typed step input targeting it, and
   * it is untouched when no typed step input targets it. In particular
   * step inputs without a type leave the tool inputs as they were.
   */
  lemma RetypedSpec(inputs: seq<CommandInputParameter>, sins: seq<StepInputConfig>)
    ensures var r := Retyped(inputs, sins, |sins|);
      && |r| == |inputs|
      && (forall k :: 0 <= k < |r| ==> (r[k].id == inputs[k].id && r[k].inputBinding == inputs[k].inputBinding
            && r[k].default == inputs[k].default))
      && (forall k :: 0 <= k < |r| && (forall j :: 0 <= j < |sins| && Typed(sins[j]) ==> Target(inputs, TargetKey(sins[j])) != Some(k))
            ==> r[k] == inputs[k])
      && (forall j, k :: 0 <= j < |sins| && Typed(sins[j]) && Target(inputs, TargetKey(sins[j])) == Some(k)
            && (forall j' :: j < j' < |sins| && Typed(sins[j']) ==> Target(inputs, TargetKey(sins[j'])) != Some(k))
            ==> k < |r| && r[k].type_ == sins[j].type_.value)
      && ((forall j :: 0 <= j < |sins| ==> !Typed(sins[j])) ==> r == inputs)
  {
    var r := Retyped(inputs, sins, |sins|);
    forall k | 0 <= k < |r| && (forall j :: 0 <= j < |sins| && Typed(sins[j]) ==> Target(inputs, TargetKey(sins[j])) != Some(k))
      ensures r[k] == inputs[k]
    {
      LastRetypeNone(inputs, sins, |sins|, k);
    }
    forall j, k | 0 <= j < |sins| && Typed(sins[j]) && Target(inputs, TargetKey(sins[j])) == Some(k)
        && (forall j' :: j < j' < |sins| && Typed(sins[j']) ==> Target(inputs, TargetKey(sins[j'])) != Some(k))
      ensures k < |r| && r[k].type_ == sins[j].type_.value
    {
      LastRetypeWins(inputs, sins, |sins|, j, k);
    }
  }

  /** The CommandLineTool loaded from the generated file, edited in place. */
  class CommandLineTool {
    var baseCommand: seq<string>
    var requirements: seq<Requirement>
    var inputs: seq<CommandInputParameter>
    var outputs: map<string, Params>
    var cwlVersion: string

    /** `load_document_by_uri`: the tool holds the document's fields. */
    constructor Load(doc: ToolDocument)
      ensures Save() == doc
    {
      baseCommand := doc.baseCommand;
      requirements := doc.requirements;
      inputs := doc.inputs;
      outputs := doc.outputs;
      cwlVersion := doc.cwlVersion;
    }

    /** `save(tool_obj)`: the document the tool's fields make. */
    function Save(): ToolDocument
      reads this
    {
      ToolDocument(baseCommand, requirements, inputs, outputs, cwlVersion)
    }

    /**
     * The loop over the step's inputs: each typed one retypes the first tool
     * input whose id contains `#<id>`, and the loop raises at the first typed
     * one without such a tool input, leaving the inputs before it applied.
     */
    method RetypeInputs(stepId: string, sins: seq<StepInputConfig>) returns (o: Outcome<GenerationError>)
      modifies this
      ensures baseCommand == old(baseCommand) && requirements == old(requirements)
      ensures outputs == old(outputs) && cwlVersion == old(cwlVersion)
      ensures o.Pass? <==> AllTargeted(old(inputs), sins, |sins|)
      ensures o.Pass? ==> inputs == Retyped(old(inputs), sins, |sins|)
      ensures o.Fail? ==> exists j: nat :: (FirstUntargeted(old(inputs), sins, j)
        && o.error == NoInput(stepId, sins[j].id) && inputs == Retyped(old(inputs), sins, j))
    {
      ghost var loaded := inputs;
      for i := 0 to |sins|
        invariant inputs == Retyped(loaded, sins, i)
        invariant AllTargeted(loaded, sins, i)
        invariant baseCommand == old(baseCommand) && requirements == old(requirements)
        invariant outputs == old(outputs) && cwlVersion == old(cwlVersion)
      {
        var inp := sins[i];
        RetypedStep(loaded, sins, i);
        if Given(inp.type_) {
          TargetFromSameIds(inputs, loaded, TargetKey(inp), 0);
          var inpConfig := Target(inputs, TargetKey(inp));
          if inpConfig.None? {
            assert FirstUntargeted(loaded, sins, i);
            return Fail(NoInput(stepId, inp.id));
          }
          inputs := inputs[inpConfig.value := inputs[inpConfig.value].(type_ := inp.type_.value)];
        }
      }
      o := Pass;
    }

    /**
     * The in-memory edits of `modify_cwl_cli`: the requirements become the
     * image's, the command runs the packaged script (through the conda
     * entrypoint when the step lists conda packages), then the step's input
     * types are applied.
     */
    method ApplyStep(dockerUrl: string, step: StepConfig) returns (o: Outcome<GenerationError>)
      modifies this
      ensures requirements == [DockerRequirement(Some(dockerUrl)), InlineJavascriptRequirement]
      ensures baseCommand == (if NonEmpty(step.conda) then [EntrypointScript] else []) + ["python", "/app/app.py"]
      ensures outputs == old(outputs) && cwlVersion == old(cwlVersion)
      ensures o.Pass? <==> AllTargeted(old(inputs), step.inputs, |step.inputs|)
      ensures o.Pass? ==> inputs == Retyped(old(inputs), step.inputs, |step.inputs|)
      ensures o.Fail? ==> exists j: nat :: (FirstUntargeted(old(inputs), step.inputs, j)
        && o.error == NoInput(step.id, step.inputs[j].id) && inputs == Retyped(old(inputs), step.inputs, j))
    {
      requirements := [DockerRequirement(Some(dockerUrl)), InlineJavascriptRequirement];
      baseCommand := ["python", "/app/app.py"];
      if NonEmpty(step.conda) {
        baseCommand := [EntrypointScript] + baseCommand;
      }
      o := RetypeInputs(step.id, step.inputs);
    }
  }

  /**
   * `modify_cwl_cli` from the loaded document to the saved one: it raises
   * at the first typed step input that matches no tool input; otherwise the
   * saved tool has the new requirements and command, the retyped inputs,
   * and the outputs and version it was loaded with.
   */
  method ModifyCwlCli(doc: ToolDocument, dockerUrl: string, step: StepConfig) returns (r: Result<ToolDocument, GenerationError>)
    ensures r.Success? <==> AllTargeted(doc.inputs, step.inputs, |step.inputs|)
    ensures r.Failure? ==> exists j: nat :: (FirstUntargeted(doc.inputs, step.inputs, j)
      && r.error == NoInput(step.id, step.inputs[j].id))
    ensures r.Success? ==> r.value == ToolDocument(
      (if NonEmpty(step.conda) then [EntrypointScript] else []) + ["python", "/app/app.py"],
      [DockerRequirement(Some(dockerUrl)), InlineJavascriptRequirement],
      Retyped(doc.inputs, step.inputs, |step.inputs|),
      doc.outputs,
      doc.cwlVersion)
  {
    var tool := new CommandLineTool.Load(doc);
    var o := tool.ApplyStep(dockerUrl, step);
    if o.Fail? {
      return Failure(o.error);
    }
    r := Success(tool.Save());
  }
}

/**
 * The CommandLineTool of a step that runs a third-party image: the command
 * template is split into tokens, literal tokens before the first placeholder
 * are collected as the base command, later literals become a one-shot
 * prefix for the next placeholder, and every placeholder becomes one input
 * parameter bound at its token's position.
 */
module DockerCli {
  import opened Wrappers
  import opened Text
  import opened Yaml
  import opened Cwl
  import opened Config
  import opened Placeholder
  import opened Indices

  predicate IsPlaceholder(t: string) {
    MatchToken(t).Some?
  }

  /** The input id named by a placeholder token. */
  function IdOf(t: string): string
    requires IsPlaceholder(t)
  {
    MatchToken(t).value.id
  }

  /** Some token before index `n` is a placeholder. */
  predicate SeenPlaceholder(parts: seq<string>, n: nat)
    requires n <= |parts|
  {
    exists j :: 0 <= j < n && IsPlaceholder(parts[j])
  }

  /**
   * The pending literal prefix once the tokens before index `n` have been
   * read: the token just before `n`, when it is a literal that comes after
   * some placeholder. A later literal replaces it and a placeholder consumes
   * it, so it never reaches further than the very next token.
   */
  function Pending(parts: seq<string>, n: nat): Option<string>
    requires n <= |parts|
  {
    if n > 0 && !IsPlaceholder(parts[n - 1]) && SeenPlaceholder(parts, n - 1) then Some(parts[n - 1]) else None
  }

  /** `next((i for i in step.inputs if i.id_ == inp_id), None)`: the first input with that id. */
  function FindInput(inputs: seq<StepInputConfig>, id: string): (r: Option<StepInputConfig>)
    ensures r.None? <==> forall k :: 0 <= k < |inputs| ==> inputs[k].id != id
    ensures r.Some? ==> exists k :: (0 <= k < |inputs| && inputs[k] == r.value && inputs[k].id == id
      && forall k' :: 0 <= k' < k ==> inputs[k'].id != id)
  {
    if inputs == [] then None
    else if inputs[0].id == id then Some(inputs[0])
    else FindInput(inputs[1..], id)
  }

  /** The token at `i` is a literal, or a placeholder naming a declared input. */
  predicate Resolves(parts: seq<string>, inputs: seq<StepInputConfig>, i: nat)
    requires i < |parts|
  {
    IsPlaceholder(parts[i]) ==> FindInput(inputs, IdOf(parts[i])).Some?
  }

  predicate AllResolve(parts: seq<string>, inputs: seq<StepInputConfig>) {
    forall i :: 0 <= i < |parts| ==> Resolves(parts, inputs, i)
  }

  /** `i` is the first token whose placeholder names no declared input. */
  predicate FirstUnresolved(parts: seq<string>, inputs: seq<StepInputConfig>, i: nat) {
    i < |parts| && !Resolves(parts, inputs, i) && forall j :: 0 <= j < i ==> Resolves(parts, inputs, j)
  }

  /**
   * The prefix of a binding from the pending literal and the inline prefix:
   * both joined by one space (pending first), else whichever exists.
   */
  function BindingPrefix(pending: Option<string>, inline: Option<string>): Option<string> {
    match pending
    case Some(a) => if inline.Some? then Some(a + " " + inline.value) else Some(a)
    case None => inline
  }

  /**
   * The parameter a placeholder token yields: a string input bound at the
   * token's own index, carrying `valueFrom` and `default` of the declared
   * input; the prefix is separated from the value only when it is a
   * pending literal alone.
   */
  function ParamAt(parts: seq<string>, inputs: seq<StepInputConfig>, i: nat): CommandInputParameter
    requires i < |parts| && IsPlaceholder(parts[i]) && Resolves(parts, inputs, i)
  {
    var m := MatchToken(parts[i]).value;
    var inp := FindInput(inputs, m.id).value;
    var pending := Pending(parts, i);
    CommandInputParameter(
      m.id, "string",
      Some(CommandLineBinding(i, BindingPrefix(pending, m.prefix), pending.Some? && m.prefix.None?, inp.valueFrom)),
      inp.default)
  }

  /**
   * `params` holds one parameter per placeholder token before index `n`, in
   * token order, and every such placeholder names a declared input.
   */
  predicate ParamsUpTo(parts: seq<string>, inputs: seq<StepInputConfig>, n: nat, params: seq<CommandInputParameter>) {
    && n <= |parts|
    && (forall j :: 0 <= j < n ==> Resolves(parts, inputs, j))
    && var idx := IndicesWhere(parts, IsPlaceholder, n);
    && |params| == |idx|
    && forall j :: 0 <= j < |idx| ==>
      idx[j] < n && IsPlaceholder(parts[idx[j]]) && params[j] == ParamAt(parts, inputs, idx[j])
  }

  /** `params` holds one parameter per placeholder token of the whole command, in token order. */
  predicate ParamsFor(parts: seq<string>, inputs: seq<StepInputConfig>, params: seq<CommandInputParameter>) {
    ParamsUpTo(parts, inputs, |parts|, params)
  }

  /** A literal token adds no parameter. */
  lemma ParamsSkip(parts: seq<string>, inputs: seq<StepInputConfig>, n: nat, params: seq<CommandInputParameter>)
    requires n < |parts| && !IsPlaceholder(parts[n]) && ParamsUpTo(parts, inputs, n, params)
    ensures ParamsUpTo(parts, inputs, n + 1, params)
  {
    assert IndicesWhere(parts, IsPlaceholder, n + 1) == IndicesWhere(parts, IsPlaceholder, n);
  }

  /** A resolved placeholder token adds its own parameter at the end. */
  lemma ParamsExtend(parts: seq<string>, inputs: seq<StepInputConfig>, n: nat, params: seq<CommandInputParameter>,
                     p: CommandInputParameter)
    requires n < |parts| && IsPlaceholder(parts[n]) && Resolves(parts, inputs, n)
    requires ParamsUpTo(parts, inputs, n, params) && p == ParamAt(parts, inputs, n)
    ensures ParamsUpTo(parts, inputs, n + 1, params + [p])
  {
    var idx := IndicesWhere(parts, IsPlaceholder, n);
    assert IndicesWhere(parts, IsPlaceholder, n + 1) == idx + [n];
  }

  /** `baseCommand` is the longest run of literal tokens at the start of the command. */
  predicate LeadingLiterals(parts: seq<string>, baseCommand: seq<string>) {
    && |baseCommand| <= |parts|
    && baseCommand == parts[..|baseCommand|]
    && (forall j :: 0 <= j < |baseCommand| ==> !IsPlaceholder(parts[j]))
    && (|baseCommand| < |parts| ==> IsPlaceholder(parts[|baseCommand|]))
  }

  /** What the token loop of `generate_docker_cli` builds. */
  datatype Compiled = Compiled(baseCommand: seq<string>, params: seq<CommandInputParameter>)

  /**
   * The token loop of `generate_docker_cli`. It raises at the first
   * placeholder naming an undeclared input; otherwise it returns the leading
   * literals and one parameter per placeholder, each as `ParamAt` describes.
   */
  method CompileCommand(stepId: string, parts: seq<string>, inputs: seq<StepInputConfig>)
    returns (r: Result<Compiled, GenerationError>)
    requires forall j :: 0 <= j < |parts| ==> IsWord(parts[j])
    ensures r.Success? <==> AllResolve(parts, inputs)
    ensures r.Failure? ==> exists i: nat :: FirstUnresolved(parts, inputs, i) && r.error == NoInput(stepId, IdOf(parts[i]))
    ensures r.Success? ==> LeadingLiterals(parts, r.value.baseCommand)
    ensures r.Success? ==> ParamsFor(parts, inputs, r.value.params)
  {
    var baseCommand: seq<string> := [];
    var params: seq<CommandInputParameter> := [];
    var baseCommandComplete := false;
    var nextPrefix: Option<string> := None;
    var i := 0;
    while i < |parts|
      invariant 0 <= i <= |parts|
      invariant baseCommandComplete == SeenPlaceholder(parts, i)
      invariant nextPrefix == Pending(parts, i)
      invariant |baseCommand| <= i && baseCommand == parts[..|baseCommand|]
      invariant forall j :: 0 <= j < |baseCommand| ==> !IsPlaceholder(parts[j])
      invariant !baseCommandComplete ==> |baseCommand| == i
      invariant baseCommandComplete ==> IsPlaceholder(parts[|baseCommand|])
      invariant ParamsUpTo(parts, inputs, i, params)
    {
      var part := parts[i];
      var reMatch := MatchToken(part);
      if !baseCommandComplete && reMatch.None? {
        ParamsSkip(parts, inputs, i, params);
        baseCommand := baseCommand + [part];
      } else if reMatch.Some? {
        baseCommandComplete := true;
        var inp := PlaceholderParam(stepId, parts, inputs, i, nextPrefix);
        if inp.Failure? {
          assert FirstUnresolved(parts, inputs, i);
          return Failure(inp.error);
        }
        ParamsExtend(parts, inputs, i, params, inp.value);
        params := params + [inp.value];
        nextPrefix := None;
      } else {
        ParamsSkip(parts, inputs, i, params);
        nextPrefix := Some(part);
      }
      i := i + 1;
    }
    r := Success(Compiled(baseCommand, params));
  }

  /**
   * One placeholder token of the loop: look up the declared input (raising
   * when there is none) and bind it at the token's index with the prefix
   * built from the inline prefix and the pending literal.
   */
  method PlaceholderParam(stepId: string, parts: seq<string>, inputs: seq<StepInputConfig>, i: nat,
                          nextPrefix: Option<string>) returns (r: Result<CommandInputParameter, GenerationError>)
    requires i < |parts| && IsPlaceholder(parts[i]) && nextPrefix == Pending(parts, i)
    requires forall j :: 0 <= j < |parts| ==> IsWord(parts[j])
    ensures r.Success? <==> Resolves(parts, inputs, i)
    ensures r.Failure? ==> r.error == NoInput(stepId, IdOf(parts[i]))
    ensures r.Success? ==> r.value == ParamAt(parts, inputs, i)
  {
    var reMatch := MatchToken(parts[i]);
    MatchIdWellFormed(parts[i]);
    var prefix := reMatch.value.prefix;
    if Given(prefix) && Given(nextPrefix) {
      prefix := Some(nextPrefix.value + " " + prefix.value);
    }
    var inpId := reMatch.value.id;
    var inpConfig := FindInput(inputs, inpId);
    if inpConfig.None? {
      return Failure(NoInput(stepId, inpId));
    }
    assert nextPrefix.Some? ==> IsWord(nextPrefix.value);
    BindingAgrees(nextPrefix, reMatch.value.prefix);
    r := Success(CommandInputParameter(
      inpId, "string",
      Some(CommandLineBinding(
        i,
        if Given(prefix) then prefix else nextPrefix,
        Given(nextPrefix) && !Given(prefix),
        inpConfig.value.valueFrom)),
      inpConfig.value.default));
  }

  /** The truthiness tests of the token loop agree with `BindingPrefix` on non-empty strings. */
  lemma BindingAgrees(pending: Option<string>, inline: Option<string>)
    requires pending.Some? ==> pending.value != []
    requires inline.Some? ==> inline.value != []
    ensures var prefix := if Given(inline) && Given(pending) then Some(pending.value + " " + inline.value) else inline;
      && (if Given(prefix) then prefix else pending) == BindingPrefix(pending, inline)
      && (Given(pending) && !Given(prefix)) == (pending.Some? && inline.None?)
  {
  }

  /** `{o.id_: o.params for o in step.outputs}`: a later output with the same id wins. */
  function OutputsMap(outputs: seq<StepOutputConfig>): map<string, Params> {
    if outputs == [] then map[]
    else OutputsMap(outputs[..|outputs| - 1])[outputs[|outputs| - 1].id := outputs[|outputs| - 1].params]
  }

  /** The outputs map has one key per output id, holding the params of the last output with that id. */
  lemma OutputsMapSpec(outputs: seq<StepOutputConfig>)
    ensures forall id :: id in OutputsMap(outputs) <==> exists k :: 0 <= k < |outputs| && outputs[k].id == id
    ensures forall k :: (0 <= k < |outputs| && (forall k' :: k < k' < |outputs| ==> outputs[k'].id != outputs[k].id)
      ==> outputs[k].id in OutputsMap(outputs) && OutputsMap(outputs)[outputs[k].id] == outputs[k].params)
  {
    OutputsMapKeys(outputs);
    OutputsMapLast(outputs);
  }

  lemma {:induction false} OutputsMapKeys(outputs: seq<StepOutputConfig>)
    ensures forall id :: id in OutputsMap(outputs) <==> exists k :: 0 <= k < |outputs| && outputs[k].id == id
  {
    if outputs != [] {
      var init := outputs[..|outputs| - 1];
      var last := outputs[|outputs| - 1];
      OutputsMapKeys(init);
      assert OutputsMap(outputs) == OutputsMap(init)[last.id := last.params];
      forall id ensures id in OutputsMap(outputs) <==> exists k :: 0 <= k < |outputs| && outputs[k].id == id {
        if id == last.id {
          assert outputs[|outputs| - 1].id == id;
        } else if id in OutputsMap(init) {
          var k :| 0 <= k < |init| && init[k].id == id;
          assert outputs[k].id == id;
        } else {
          forall k | 0 <= k < |outputs| ensures outputs[k].id != id {
            if k < |init| {
              assert init[k] == outputs[k];
            }
          }
        }
      }
    }
  }

  lemma {:induction false} OutputsMapLast(outputs: seq<StepOutputConfig>)
    ensures forall k :: (0 <= k < |outputs| && (forall k' :: k < k' < |outputs| ==> outputs[k'].id != outputs[k].id)
      ==> outputs[k].id in OutputsMap(outputs) && OutputsMap(outputs)[outputs[k].id] == outputs[k].params)
  {
    if outputs != [] {
      var init := outputs[..|outputs| - 1];
      var last := outputs[|outputs| - 1];
      OutputsMapLast(init);
      assert OutputsMap(outputs) == OutputsMap(init)[last.id := last.params];
      forall k | 0 <= k < |outputs| - 1 && (forall k' :: k < k' < |outputs| ==> outputs[k'].id != outputs[k].id)
        ensures outputs[k].id in OutputsMap(outputs) && OutputsMap(outputs)[outputs[k].id] == outputs[k].params
      {
        assert init[k] == outputs[k];
        assert forall k' :: k < k' < |init| ==> init[k'].id != init[k].id;
        assert outputs[k].id != last.id;
      }
    }
  }

  /**
   * The outputs map of `write_cwl_cli_outputs`, filled by its loop; the map is
   * written under the key `outputs` of a YAML file.
   */
  method WriteCwlCliOutputs(outputs: seq<StepOutputConfig>) returns (m: map<string, Params>)
    ensures m == OutputsMap(outputs)
    ensures forall id :: id in m <==> exists k :: 0 <= k < |outputs| && outputs[k].id == id
    ensures forall k :: (0 <= k < |outputs| && (forall k' :: k < k' < |outputs| ==> outputs[k'].id != outputs[k].id)
      ==> outputs[k].id in m && m[outputs[k].id] == outputs[k].params)
  {
    m := map[];
    for k := 0 to |outputs|
      invariant m == OutputsMap(outputs[..k])
    {
      assert outputs[..k + 1][..k] == outputs[..k];
      m := m[outputs[k].id := outputs[k].params];
    }
    assert outputs[..|outputs|] == outputs;
    OutputsMapSpec(outputs);
  }

  /**
   * `generate_docker_cli` up to the YAML dump: it raises when the step has no
   * command, at the first placeholder naming an undeclared input, and when
   * the command holds only whitespace (`command_parts[0]`); otherwise the
   * tool runs the first token, pulls the step's image, has one string input
   * per placeholder and the step's outputs.
   */
  method GenerateDockerCli(step: StepConfig) returns (r: Result<ToolDocument, GenerationError>)
    ensures !Given(step.command) ==> r == Failure(NoCommand(step.id))
    ensures Given(step.command) ==> var parts := Split(step.command.value);
      && (!AllResolve(parts, step.inputs) ==>
            exists i: nat :: FirstUnresolved(parts, step.inputs, i) && r == Failure(NoInput(step.id, IdOf(parts[i]))))
      && (AllResolve(parts, step.inputs) && parts == [] ==> r == Failure(EmptyCommandParts(step.id)))
      && (AllResolve(parts, step.inputs) && parts != [] ==> r.Success?)
    ensures r.Success? ==> Given(step.command) && var parts := Split(step.command.value);
      && parts != []
      && r.value.baseCommand == [parts[0]]
      && r.value.requirements == [DockerRequirement(step.dockerImage), InlineJavascriptRequirement]
      && ParamsFor(parts, step.inputs, r.value.inputs)
      && r.value.outputs == OutputsMap(step.outputs)
      && r.value.cwlVersion == CwlVersion
  {
    if !Given(step.command) {
      return Failure(NoCommand(step.id));
    }
    var commandParts := Split(step.command.value);
    SplitSpec(step.command.value);
    assert forall j :: 0 <= j < |commandParts| ==> commandParts[j] in commandParts;
    var outputs := OutputsMap(step.outputs);
    var compiled := CompileCommand(step.id, commandParts, step.inputs);
    if compiled.Failure? {
      return Failure(compiled.error);
    }
    if commandParts == [] {
      return Failure(EmptyCommandParts(step.id));
    }
    r := Success(ToolDocument(
      [commandParts[0]],
      [DockerRequirement(step.dockerImage), InlineJavascriptRequirement],
      compiled.value.params,
      outputs,
      CwlVersion));
  }

  // ---------------------------------------------------------------- properties of the parameters

  /**
   * Exactly one parameter per placeholder token, in token order: parameter
   * `j` sits at the index of the `j`-th placeholder token and names its id,
   * so positions strictly increase and every placeholder token is covered.
   */
  lemma OnePerPlaceholder(parts: seq<string>, inputs: seq<StepInputConfig>, params: seq<CommandInputParameter>)
    requires ParamsFor(parts, inputs, params)
    ensures forall j :: 0 <= j < |params| ==> (params[j].inputBinding.Some?
      && 0 <= params[j].inputBinding.value.position < |parts|
      && IsPlaceholder(parts[params[j].inputBinding.value.position])
      && params[j].id == IdOf(parts[params[j].inputBinding.value.position]))
    ensures forall j, j' :: 0 <= j < j' < |params| ==>
      params[j].inputBinding.value.position < params[j'].inputBinding.value.position
    ensures forall i :: 0 <= i < |parts| && IsPlaceholder(parts[i]) ==>
      exists j :: 0 <= j < |params| && params[j].inputBinding.value.position == i
  {
    var idx := IndicesWhere(parts, IsPlaceholder, |parts|);
    IndicesWhereSpec(parts, IsPlaceholder, |parts|);
    assert forall j :: 0 <= j < |params| ==> params[j].inputBinding.value.position == idx[j];
    forall i | 0 <= i < |parts| && IsPlaceholder(parts[i])
      ensures exists j :: 0 <= j < |params| && params[j].inputBinding.value.position == i
    {
      var j :| 0 <= j < |idx| && idx[j] == i;
      assert params[j].inputBinding.value.position == i;
    }
  }

  /**
   * The prefix rules of one placeholder at index `i` with inline prefix `m.prefix`:
   * - at the first placeholder no literal is pending, so the literals before
   *   it never become a prefix and `separate` is false;
   * - a pending prefix is the literal token right before `i`, and only when a
   *   placeholder came earlier;
   * - with both, the prefix is `pending + " " + inline` and `separate` is false;
   * - `separate` holds exactly when a literal is pending and there is no inline prefix.
   */
  lemma PrefixRules(parts: seq<string>, inputs: seq<StepInputConfig>, i: nat)
    requires i < |parts| && IsPlaceholder(parts[i]) && Resolves(parts, inputs, i)
    ensures var m := MatchToken(parts[i]).value;
      var b := ParamAt(parts, inputs, i).inputBinding.value;
      && b.position == i
      && (!SeenPlaceholder(parts, i) ==> b.prefix == m.prefix && !b.separate)
      && (i == 0 || IsPlaceholder(parts[i - 1]) ==> b.prefix == m.prefix && !b.separate)
      && (i > 0 && !IsPlaceholder(parts[i - 1]) && SeenPlaceholder(parts, i - 1) ==>
            && (m.prefix.Some? ==> b.prefix == Some(parts[i - 1] + " " + m.prefix.value) && !b.separate)
            && (m.prefix.None? ==> b.prefix == Some(parts[i - 1]) && b.separate))
  {
    if !SeenPlaceholder(parts, i) && i > 0 {
      assert !SeenPlaceholder(parts, i - 1);
    }
  }

  /**
   * The literal tokens between the first token and the first placeholder
   * reach the generated tool in no way: the base command is the first token
   * alone, and every prefix drawn from a pending literal comes from a token
   * after the first placeholder.
   */
  lemma LeadingLiteralsDropped(parts: seq<string>, inputs: seq<StepInputConfig>, baseCommand: seq<string>,
                                params: seq<CommandInputParameter>)
    requires LeadingLiterals(parts, baseCommand) && ParamsFor(parts, inputs, params)
    ensures forall j :: 0 <= j < |params| && params[j].inputBinding.value.separate ==>
      |baseCommand| < params[j].inputBinding.value.position - 1
    ensures forall j :: 0 <= j < |params| ==>
      Pending(parts, params[j].inputBinding.value.position).Some? ==>
        |baseCommand| < params[j].inputBinding.value.position - 1
  {
    OnePerPlaceholder(parts, inputs, params);
    forall j | 0 <= j < |params| && Pending(parts, params[j].inputBinding.value.position).Some?
      ensures |baseCommand| < params[j].inputBinding.value.position - 1
    {
      var p := params[j].inputBinding.value.position;
      var w :| 0 <= w < p - 1 && IsPlaceholder(parts[w]);
      assert |baseCommand| <= w;
    }
  }

  /**
   * The command `run --in ${foo} --out ${bar}`: `--in` stands before the
   * first placeholder, so it joins the literal run and is dropped with it
   * (the tool runs `run` alone) and `foo` is bound with no prefix; `--out`
   * is pending when `${bar}` is read, so `bar` is bound with prefix
   * `--out`, separated from its value.
   */
  lemma ExampleInOut(inputs: seq<StepInputConfig>, baseCommand: seq<string>, params: seq<CommandInputParameter>)
    requires var parts := Split("run --in ${foo} --out ${bar}");
      LeadingLiterals(parts, baseCommand) && ParamsFor(parts, inputs, params)
    ensures Split("run --in ${foo} --out ${bar}") == ["run", "--in", "${foo}", "--out", "${bar}"]
    ensures baseCommand == ["run", "--in"]
    ensures |params| == 2
    ensures params[0].id == "foo" && params[0].inputBinding.value.position == 2
      && params[0].inputBinding.value.prefix == None && !params[0].inputBinding.value.separate
    ensures params[1].id == "bar" && params[1].inputBinding.value.position == 4
      && params[1].inputBinding.value.prefix == Some("--out") && params[1].inputBinding.value.separate
  {
    ExampleTokens();
    ExampleCompiled(["run", "--in", "${foo}", "--out", "${bar}"], inputs, baseCommand, params);
  }

  lemma ExampleCompiled(parts: seq<string>, inputs: seq<StepInputConfig>, baseCommand: seq<string>,
                        params: seq<CommandInputParameter>)
    requires parts == ["run", "--in", "${foo}", "--out", "${bar}"]
    requires LeadingLiterals(parts, baseCommand) && ParamsFor(parts, inputs, params)
    ensures baseCommand == ["run", "--in"]
    ensures |params| == 2
    ensures params[0].id == "foo" && params[0].inputBinding.value.position == 2
      && params[0].inputBinding.value.prefix == None && !params[0].inputBinding.value.separate
    ensures params[1].id == "bar" && params[1].inputBinding.value.position == 4
      && params[1].inputBinding.value.prefix == Some("--out") && params[1].inputBinding.value.separate
  {
    ExampleShape(parts);
    assert |baseCommand| == 2;
    assert parts[..2] == ["run", "--in"];
    assert params[0] == ParamAt(parts, inputs, 2);
    assert params[1] == ParamAt(parts, inputs, 4);
  }

  lemma ExampleShape(parts: seq<string>)
    requires parts == ["run", "--in", "${foo}", "--out", "${bar}"]
    ensures !IsPlaceholder(parts[0]) && !IsPlaceholder(parts[1]) && !IsPlaceholder(parts[3])
    ensures IsPlaceholder(parts[2]) && IsPlaceholder(parts[4])
    ensures IdOf(parts[2]) == "foo" && MatchToken(parts[2]).value.prefix.None?
    ensures IdOf(parts[4]) == "bar" && MatchToken(parts[4]).value.prefix.None?
    ensures Pending(parts, 2).None? && Pending(parts, 4) == Some("--out")
    ensures IndicesWhere(parts, IsPlaceholder, 5) == [2, 4]
  {
    ExampleMatches();
    assert !IsPlaceholder(parts[0]) && !IsPlaceholder(parts[1]) && !IsPlaceholder(parts[3]);
    assert IsPlaceholder(parts[2]) && IsPlaceholder(parts[4]);
    LiteralPlaceholderShape(parts);
  }

  /** Tokens literal, literal, placeholder, literal, placeholder. */
  lemma LiteralPlaceholderShape(parts: seq<string>)
    requires |parts| == 5
    requires !IsPlaceholder(parts[0]) && !IsPlaceholder(parts[1]) && !IsPlaceholder(parts[3])
    requires IsPlaceholder(parts[2]) && IsPlaceholder(parts[4])
    ensures Pending(parts, 2).None? && Pending(parts, 4) == Some(parts[3])
    ensures IndicesWhere(parts, IsPlaceholder, 5) == [2, 4]
  {
    assert IndicesWhere(parts, IsPlaceholder, 1) == [];
    assert IndicesWhere(parts, IsPlaceholder, 2) == [];
    assert IndicesWhere(parts, IsPlaceholder, 3) == [2];
    assert IndicesWhere(parts, IsPlaceholder, 4) == [2];
    assert SeenPlaceholder(parts, 3);
  }

  lemma ExampleTokens()
    ensures Split("run --in ${foo} --out ${bar}") == ["run", "--in", "${foo}", "--out", "${bar}"]
  {
    var parts := ["run", "--in", "${foo}", "--out", "${bar}"];
    ExampleWords(parts);
    ExampleJoin(parts);
    SplitJoin(parts);
  }

  lemma ExampleWords(parts: seq<string>)
    requires parts == ["run", "--in", "${foo}", "--out", "${bar}"]
    ensures forall t :: t in parts ==> IsWord(t)
  {
    assert IsWord("run") && IsWord("--in") && IsWord("${foo}");
    assert IsWord("--out") && IsWord("${bar}");
  }

  lemma ExampleJoin(parts: seq<string>)
    requires parts == ["run", "--in", "${foo}", "--out", "${bar}"]
    ensures JoinSpace(parts) == "run --in ${foo} --out ${bar}"
  {
    JoinFive(parts);
    assert "run" + " " + "--in" + " " + "${foo}" + " " + "--out" + " " + "${bar}" == "run --in ${foo} --out ${bar}";
  }

  lemma JoinFive(ts: seq<string>)
    requires |ts| == 5
    ensures JoinSpace(ts) == ts[0] + " " + ts[1] + " " + ts[2] + " " + ts[3] + " " + ts[4]
  {
    assert JoinSpace(ts[3..]) == ts[3] + " " + ts[4];
    assert JoinSpace(ts[2..]) == ts[2] + " " + (ts[3] + " " + ts[4]);
    assert JoinSpace(ts[1..]) == ts[1] + " " + (ts[2] + " " + (ts[3] + " " + ts[4]));
  }

  lemma ExampleMatches()
    ensures MatchToken("${foo}") == Some(Match(None, "foo")) && MatchToken("${bar}") == Some(Match(None, "bar"))
    ensures MatchToken("run").None? && MatchToken("--in").None? && MatchToken("--out").None?
  {
    BareMarker("foo");
    BareMarker("bar");
    assert "${" + "foo" + "}" == "${foo}" && "${" + "bar" + "}" == "${bar}";
    NoDollarNoMatch("run");
    NoDollarNoMatch("--in");
    NoDollarNoMatch("--out");
  }
}

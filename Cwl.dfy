/**
 * The records of the CWL v1.0 standard that the generator builds: the
 * CommandLineTool document of one step and the Workflow document that
 * connects the steps. Only the fields the generator sets are kept.
 */
module Cwl {
  import opened Wrappers
  import opened Yaml

  /** Every document the generator writes declares this version. */
  const CwlVersion: string := "v1.0"

  datatype Requirement =
    | DockerRequirement(dockerPull: Option<string>)
    | InlineJavascriptRequirement
    | ScatterFeatureRequirement
    | ResourceRequirement(ramMin: Option<int>, ramMax: Option<int>, coresMin: Option<int>, coresMax: Option<int>)

  /** How one input is placed on the command line (CommandLineBinding). */
  datatype CommandLineBinding = CommandLineBinding(
    position: int,
    prefix: Option<string>,
    separate: bool,
    valueFrom: Option<string>)

  datatype CommandInputParameter = CommandInputParameter(
    id: string,
    type_: string,
    inputBinding: Option<CommandLineBinding>,
    default: Option<Value>)

  /** The opaque type/glob declarations of one output, passed through unread. */
  type Params = map<string, Value>

  /** A CommandLineTool document as it is saved to a step's `.cwl` file. */
  datatype ToolDocument = ToolDocument(
    baseCommand: seq<string>,
    requirements: seq<Requirement>,
    inputs: seq<CommandInputParameter>,
    outputs: map<string, Params>,
    cwlVersion: string)

  datatype InputParameter = InputParameter(
    id: string,
    label_: string,
    doc: string,
    type_: string,
    default: Option<Value>)

  datatype WorkflowOutputParameter = WorkflowOutputParameter(
    id: string,
    outputSource: seq<string>,
    type_: string)

  datatype WorkflowStepInput = WorkflowStepInput(
    id: string,
    source: Option<string>,
    valueFrom: Option<string>,
    default: Option<Value>)

  datatype WorkflowStepOutput = WorkflowStepOutput(id: string)

  /** A step node; `scatter` is absent rather than empty when nothing is scattered. */
  datatype WorkflowStep = WorkflowStep(
    id: string,
    run: string,
    in_: seq<WorkflowStepInput>,
    out: seq<WorkflowStepOutput>,
    scatter: Option<seq<string>>,
    scatterMethod: Option<string>)

  datatype Workflow = Workflow(
    id: string,
    doc: string,
    label_: string,
    inputs: seq<InputParameter>,
    outputs: seq<WorkflowOutputParameter>,
    steps: seq<WorkflowStep>,
    cwlVersion: string,
    requirements: seq<Requirement>)

  /** The `ValueError`s and the `IndexError` raised while generating a step's tool. */
  datatype GenerationError =
    | NoCommand(stepId: string)
    | NoInput(stepId: string, inputId: string)
    | EmptyCommandParts(stepId: string)
}

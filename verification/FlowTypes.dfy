/** The entities of an ArkFlow: what a user writes (the spec) and what the engine records (the status). */
module FlowTypes {

  datatype Option<+T> = None | Some(value: T)

  /** A clock reading, in nanoseconds. */
  type Time = int

  const NANOS_PER_SECOND := 1_000_000_000
  const DAY := 24 * 3600 * NANOS_PER_SECOND

  datatype StepPhase = Pending | Running | Succeeded | Failed | Skipped {
    /** What a dependent step waits for. */
    predicate Done() {
      Succeeded? || Skipped?
    }
  }

  /** `Unset` is the empty phase of a flow that was never reconciled. */
  datatype FlowPhase = Unset | FlowPending | FlowRunning | FlowSucceeded | FlowFailed {
    predicate Terminal() {
      FlowSucceeded? || FlowFailed?
    }
  }

  datatype LoopSpec = LoopSpec(condition: string, maxIterations: int)

  datatype Step = Step(
    name: string,
    arkAgent: string,
    inputs: map<string, string>,
    dependsOn: seq<string>,
    outputSchema: string,
    ifCondition: string,
    loop: Option<LoopSpec>)

  datatype FlowSpec = FlowSpec(
    steps: seq<Step>,
    input: map<string, string>,
    output: string,
    timeoutSeconds: int,
    maxTokens: int)

  datatype TokenUsage = TokenUsage(inputTokens: int, outputTokens: int, totalTokens: int)

  datatype Message =
    | NoMessage
    | SkippedByCondition
    | LoopIteration(iteration: int, cap: int)
    | InputTemplateError
    | AgentError(error: string)

  datatype StepStatus = StepStatus(
    name: string,
    phase: StepPhase,
    taskId: string,
    output: string,
    outputJson: string,
    startTime: Option<Time>,
    completionTime: Option<Time>,
    message: Message,
    iterations: int,
    tokenUsage: Option<TokenUsage>)

  /** The reason recorded in the flow's Ready condition. */
  datatype Reason =
    | Validated
    | InvalidDag
    | DeploymentNotFound
    | NoTaskQueue
    | TimedOut
    | BudgetExceeded
    | StepFailed
    | AllSucceeded

  datatype FlowStatus = FlowStatus(
    phase: FlowPhase,
    steps: seq<StepStatus>,
    startTime: Option<Time>,
    completionTime: Option<Time>,
    output: string,
    totals: Option<TokenUsage>,
    ready: Option<Reason>)

  /** The status of a flow nobody has looked at yet. */
  const FRESH_STATUS := FlowStatus(Unset, [], None, None, "", None, None)

  function StatusNames(steps: seq<StepStatus>): (names: seq<string>) {
    seq(|steps|, i requires 0 <= i < |steps| => steps[i].name)
  }

  predicate UniqueNames(spec: FlowSpec) {
    forall i, j :: 0 <= i < j < |spec.steps| ==> spec.steps[i].name != spec.steps[j].name
  }

  predicate LoopFree(spec: FlowSpec) {
    forall i :: 0 <= i < |spec.steps| ==> spec.steps[i].loop.None?
  }
}

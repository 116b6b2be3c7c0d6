/** One pass of the Redis-backed controller, as functions on values. */
module Controller {
  import opened FlowTypes
  import opened Templates
  import opened FlowLogic
  import Dag

  /** An entry of the shared task stream. `step` and `iteration` of a task submitted for this flow
      are bookkeeping: the entry itself carries only the prompt and the stream key. */
  datatype Entry =
    | FlowTask(step: nat, iteration: int, prompt: string, streamKey: string)
    | ForeignTask

  datatype ResultMsg = ResultMsg(taskId: string, result: string, inputTokens: int, outputTokens: int)

  /** `idOf(p)` is the ID Redis gives to the entry at position p of the task stream. */
  datatype Env = Env(engine: Engine, idOf: nat -> string, streamKey: string)

  /** Redis IDs are fresh and never empty. */
  ghost predicate FreshIds(env: Env) {
    && (forall p :: env.idOf(p) != "")
    && (forall p, q :: env.idOf(p) == env.idOf(q) ==> p == q)
  }

  /** The clock readings of one pass: when the flow starts, when the k-th result message is applied,
      when the k-th step of the spec is handled, and when the phase is updated. */
  datatype PassClock = PassClock(start: Time, collect: nat -> Time, submit: nat -> Time, finish: Time)

  /** Readings never go back, neither within the pass nor from what was read before. */
  ghost predicate Monotone(clk: PassClock, before: Time) {
    && before <= clk.start
    && (forall k :: clk.start <= clk.collect(k))
    && (forall k, i :: clk.collect(k) <= clk.submit(i))
    && (forall i :: clk.submit(i) <= clk.finish)
  }

  // --- Collecting results ---------------------------------------------------------------------

  predicate InFlight(st: StepStatus) {
    st.phase.Running? && st.taskId != ""
  }

  ghost predicate DistinctTaskIds(steps: seq<StepStatus>) {
    forall i, j :: 0 <= i < j < |steps| && InFlight(steps[i]) && InFlight(steps[j]) ==>
      steps[i].taskId != steps[j].taskId
  }

  function UsageOf(m: ResultMsg, before: Option<TokenUsage>): (u: Option<TokenUsage>) {
    if m.inputTokens > 0 || m.outputTokens > 0
    then Some(TokenUsage(m.inputTokens, m.outputTokens, m.inputTokens + m.outputTokens))
    else before
  }

  function Complete(st: StepStatus, m: ResultMsg, now: Time): (r: StepStatus) {
    st.(phase := Succeeded, output := m.result, completionTime := Some(now), tokenUsage := UsageOf(m, st.tokenUsage))
  }

  /** A record after the messages at positions lo..hi carrying its task ID were applied. */
  function Applied(st: StepStatus, results: seq<ResultMsg>, clock: nat -> Time, lo: nat, hi: nat): (r: StepStatus)
    requires hi <= |results|
    decreases hi
  {
    if hi <= lo then st
    else
      var s := Applied(st, results, clock, lo, hi - 1);
      if results[hi - 1].taskId == st.taskId then Complete(s, results[hi - 1], clock(hi - 1)) else s
  }

  function CollectStep(st: StepStatus, results: seq<ResultMsg>, clock: nat -> Time, lo: nat, hi: nat): (r: StepStatus)
    requires hi <= |results|
  {
    if InFlight(st) then Applied(st, results, clock, lo, hi) else st
  }

  /** `collectResults` over the messages from position lo on; the controller always uses lo = 0. */
  function Collected(steps: seq<StepStatus>, ix: map<string, nat>, results: seq<ResultMsg>, clock: nat -> Time,
                     lo: nat, hi: nat)
    : (r: seq<StepStatus>)
    requires hi <= |results|
    ensures |r| == |steps|
  {
    seq(|steps|, i requires 0 <= i < |steps| =>
      if i in ix.Values then CollectStep(steps[i], results, clock, lo, hi) else steps[i])
  }

  // --- Submitting -----------------------------------------------------------------------------

  datatype Board = Board(steps: seq<StepStatus>, stream: seq<Entry>)

  function RejectStep(st: StepStatus, now: Time): (r: StepStatus) {
    st.(phase := Failed, completionTime := Some(now), message := InputTemplateError)
  }

  function LaunchStep(st: StepStatus, taskId: string, now: Time): (r: StepStatus) {
    st.(phase := Running, taskId := taskId, startTime := Some(now))
  }

  /** What `submitPendingSteps` does with the k-th step of the spec. */
  function SubmitStep(env: Env, spec: FlowSpec, b: Board, ix: map<string, nat>, data: TemplateData, k: nat, now: Time)
    : (r: Board)
    requires k < |spec.steps| && Pointers(ix, b.steps)
    ensures Pointers(ix, r.steps) && |r.steps| == |b.steps|
  {
    var step := spec.steps[k];
    if step.name !in ix || !b.steps[ix[step.name]].phase.Pending? then b
    else if !DepsSucceeded(step.dependsOn, b.steps, ix) then b
    else
      var i := ix[step.name];
      var st := b.steps[i];
      if SkipsStep(env.engine, step, data) then b.(steps := b.steps[i := SkipStep(st, now)])
      else
        match ResolvePrompt(env.engine, step, data)
        case None => b.(steps := b.steps[i := RejectStep(st, now)])
        case Some(prompt) =>
          Board(b.steps[i := LaunchStep(st, env.idOf(|b.stream|), now)],
                b.stream + [FlowTask(i, st.iterations, prompt, env.streamKey)])
  }

  function SubmittedUpTo(env: Env, spec: FlowSpec, b: Board, ix: map<string, nat>, data: TemplateData,
                         clock: nat -> Time, k: nat)
    : (r: Board)
    requires k <= |spec.steps| && Pointers(ix, b.steps)
    ensures Pointers(ix, r.steps) && |r.steps| == |b.steps|
  {
    if k == 0 then b
    else SubmitStep(env, spec, SubmittedUpTo(env, spec, b, ix, data, clock, k - 1), ix, data, k - 1, clock(k - 1))
  }

  // --- A whole pass ---------------------------------------------------------------------------

  /** The stages of a pass that gets through to the flow. */
  datatype PassTrace = PassTrace(
    init: FlowStatus,
    ix: map<string, nat>,
    collected: seq<StepStatus>,
    parsed: seq<StepStatus>,
    data: TemplateData,
    looped: seq<StepStatus>,
    board: Board,
    final: FlowStatus)

  lemma CollectKeepsPointers(steps: seq<StepStatus>, ix: map<string, nat>, results: seq<ResultMsg>,
                             clock: nat -> Time, lo: nat, hi: nat)
    requires hi <= |results| && Pointers(ix, steps)
    ensures Pointers(ix, Collected(steps, ix, results, clock, lo, hi))
  {
    forall i | 0 <= i < |steps|
      ensures Collected(steps, ix, results, clock, lo, hi)[i].name == steps[i].name
    {
      AppliedKeepsName(steps[i], results, clock, lo, hi);
    }
  }

  lemma AppliedKeepsName(st: StepStatus, results: seq<ResultMsg>, clock: nat -> Time, lo: nat, hi: nat)
    requires hi <= |results|
    ensures Applied(st, results, clock, lo, hi).name == st.name
  {
  }

  /** The stages, in the order of `Reconcile`: initialise, collect, parse, evaluate loops, submit,
      update the phase. Only the messages from position `lo` on are looked at. */
  function Pass(env: Env, spec: FlowSpec, st: FlowStatus, stream: seq<Entry>, results: seq<ResultMsg>, lo: nat,
                clk: PassClock)
    : (t: PassTrace)
    ensures Pointers(t.ix, t.init.steps) && Pointers(t.ix, t.collected) && Pointers(t.ix, t.parsed)
            && Pointers(t.ix, t.looped) && Pointers(t.ix, t.board.steps)
    ensures t.final.steps == t.board.steps
    ensures |t.init.steps| == |t.collected| == |t.parsed| == |t.looped| == |t.board.steps|
  {
    var init := Initialized(spec, st, clk.start);
    var ix := StatusByName(init.steps);
    CollectKeepsPointers(init.steps, ix, results, clk.collect, lo, |results|);
    var collected := Collected(init.steps, ix, results, clk.collect, lo, |results|);
    var parsed := ParseAll(env.engine, spec, collected, ix);
    var data := DataOf(env.engine, spec, parsed, ix);
    var looped := LoopsEvaluated(env.engine, spec, parsed, ix, data);
    var board := SubmittedUpTo(env, spec, Board(looped, stream), ix, data, clk.submit, |spec.steps|);
    var final := PhaseUpdated(env.engine, spec, init.(steps := board.steps), data, clk.finish);
    PassTrace(init, ix, collected, parsed, data, looped, board, final)
  }

  /** The status and the task stream of a pass that could not enqueue the task of step k. */
  function Interrupted(env: Env, spec: FlowSpec, t: PassTrace, stream: seq<Entry>, clk: PassClock, k: nat)
    : (r: (FlowStatus, seq<Entry>))
    requires Pointers(t.ix, t.looped)
  {
    var n := if k <= |spec.steps| then k else |spec.steps|;
    var b := SubmittedUpTo(env, spec, Board(t.looped, stream), t.ix, t.data, clk.submit, n);
    (t.init.(steps := b.steps), b.stream)
  }

  /** What `Reconcile` looks up before it works on the flow. */
  datatype Gate = Gate(isTemplate: bool, agentsExist: bool, hasRedis: bool)

  /** Does a reconcile get through to the flow's steps? */
  ghost predicate Opens(spec: FlowSpec, st: FlowStatus, gate: Gate) {
    !gate.isTemplate && Dag.ValidDag(spec) && gate.agentsExist && !st.phase.Terminal() && gate.hasRedis
  }

  /** The status after a reconcile that does not get through. */
  ghost function TurnedAway(spec: FlowSpec, st: FlowStatus, gate: Gate): (r: FlowStatus) {
    if gate.isTemplate then st
    else if !Dag.ValidDag(spec) then st.(ready := Some(InvalidDag))
    else if !gate.agentsExist then st.(ready := Some(DeploymentNotFound))
    else if st.phase.Terminal() then st
    else st.(ready := Some(NoTaskQueue))
  }
}

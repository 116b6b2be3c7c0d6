/** What the step logic means, in terms of templates, records and clocks alone: the vocabulary of the
    theorems that say what a pass or a batch does to a step and to the flow. */
module StepMeaning {
  import opened FlowTypes
  import opened Templates
  import opened FlowLogic
  import JsonExtract

  // --- Prompts and conditions -----------------------------------------------------------------

  /** The prompt lays out every input of the step, each resolved under the data, and the schema. */
  ghost predicate Rendered(engine: Engine, step: Step, data: TemplateData, prompt: string) {
    exists inputs: map<string, string> ::
      && inputs.Keys == step.inputs.Keys
      && (forall k :: k in inputs ==> engine.resolve(step.inputs[k], data) == Some(inputs[k]))
      && prompt == engine.render(inputs, step.outputSchema)
  }

  /** Some input of the step does not resolve. */
  ghost predicate Unresolvable(engine: Engine, step: Step, data: TemplateData) {
    exists k :: k in step.inputs && engine.resolve(step.inputs[k], data) == None
  }

  /** The step has a condition, and it is an error or a falsy text. */
  ghost predicate ConditionFalse(engine: Engine, step: Step, data: TemplateData) {
    step.ifCondition != "" &&
    match engine.resolve(step.ifCondition, data)
    case None => true
    case Some(text) => !IsTruthy(text)
  }

  lemma PromptIsRendered(engine: Engine, step: Step, data: TemplateData)
    ensures ResolvePrompt(engine, step, data).None? <==> Unresolvable(engine, step, data)
    ensures ResolvePrompt(engine, step, data).Some? ==>
              Rendered(engine, step, data, ResolvePrompt(engine, step, data).value)
  {
    var inputs := map k | k in step.inputs && engine.resolve(step.inputs[k], data).Some? ::
      engine.resolve(step.inputs[k], data).value;
    if ResolvePrompt(engine, step, data).Some? {
      assert inputs == map k | k in step.inputs :: engine.resolve(step.inputs[k], data).value;
      assert inputs.Keys == step.inputs.Keys;
    }
  }

  lemma SkippingIsConditionFalse(engine: Engine, step: Step, data: TemplateData)
    ensures SkipsStep(engine, step, data) <==> ConditionFalse(engine, step, data)
  {
    hide IsTruthy;
  }

  // --- Dependencies ---------------------------------------------------------------------------

  /** The record counts for the steps that wait for it. */
  predicate Over(st: StepStatus) {
    st.phase.Succeeded? || st.phase.Skipped?
  }

  /** When the turn of step i comes, in spec order, each of its dependencies names a step that is over: a
      step listed earlier as the round has left it, any other as the round has found it. */
  ghost predicate Released(spec: FlowSpec, before: seq<StepStatus>, after: seq<StepStatus>, i: nat)
    requires i < |spec.steps| == |before| == |after|
  {
    forall d :: d in spec.steps[i].dependsOn ==>
      exists j :: 0 <= j < |spec.steps| && spec.steps[j].name == d && Over(if j < i then after[j] else before[j])
  }

  lemma ReleasedIsDepsSucceeded(spec: FlowSpec, before: seq<StepStatus>, after: seq<StepStatus>, turn: seq<StepStatus>,
                                ix: map<string, nat>, i: nat)
    requires i < |spec.steps| == |before| == |after| == |turn| && Faithful(spec, ix) && Pointers(ix, turn)
    requires forall j :: 0 <= j < |turn| ==> turn[j] == if j < i then after[j] else before[j]
    ensures DepsSucceeded(spec.steps[i].dependsOn, turn, ix) <==> Released(spec, before, after, i)
  {
    if DepsSucceeded(spec.steps[i].dependsOn, turn, ix) {
      forall d | d in spec.steps[i].dependsOn
        ensures exists j ::
                  0 <= j < |spec.steps| && spec.steps[j].name == d && Over(if j < i then after[j] else before[j])
      {
        assert DepDone(d, turn, ix);
        assert spec.steps[ix[d]].name == d && Over(turn[ix[d]]);
      }
    }
    if Released(spec, before, after, i) {
      forall d | d in spec.steps[i].dependsOn ensures DepDone(d, turn, ix) {
        var j :| 0 <= j < |spec.steps| && spec.steps[j].name == d && Over(if j < i then after[j] else before[j]);
        assert ix[d] == j;
      }
    }
  }

  // --- Template data --------------------------------------------------------------------------

  /** Templates see the flow input and, for each step, the output and the JSON of its record. */
  ghost predicate Sees(engine: Engine, spec: FlowSpec, data: TemplateData, steps: seq<StepStatus>) {
    && data.input == spec.input && |steps| == |spec.steps|
    && (forall i :: 0 <= i < |steps| ==> spec.steps[i].name in data.steps)
    && (forall n :: n in data.steps ==> exists i :: 0 <= i < |spec.steps| && spec.steps[i].name == n)
    && forall i :: 0 <= i < |steps| ==>
         var seen := data.steps[spec.steps[i].name];
         && seen.output == steps[i].output
         && seen.data == if steps[i].outputJson != "" && engine.validJson(steps[i].outputJson)
                         then Some(steps[i].outputJson) else None
  }

  lemma DataIsSeen(engine: Engine, spec: FlowSpec, steps: seq<StepStatus>, ix: map<string, nat>)
    requires Faithful(spec, ix) && Mirrors(spec, steps) && Pointers(ix, steps)
    ensures Sees(engine, spec, DataOf(engine, spec, steps, ix), steps)
  {
    forall i | 0 <= i < |spec.steps| ensures spec.steps[i].name in ix && ix[spec.steps[i].name] == i {
    }
  }

  // --- Loops ----------------------------------------------------------------------------------

  /** How often a step may be repeated: never without a loop, otherwise as often as its positive
      `maxIterations` says, or ten times. */
  function Repetitions(step: Step): (n: nat) {
    match step.loop
    case None => 0
    case Some(loop) => if loop.maxIterations > 0 then loop.maxIterations else 10
  }

  lemma RepetitionsIsCap(step: Step)
    ensures EffectiveMax(step) == Repetitions(step)
    ensures step.loop.Some? ==> LoopCap(step.loop.value) == Repetitions(step)
  {
  }

  /** The step is repeated: it has succeeded, may be repeated, and its loop condition is a truthy text. */
  ghost predicate Repeats(engine: Engine, step: Step, st: StepStatus, data: TemplateData) {
    && st.phase.Succeeded? && step.loop.Some? && st.iterations < Repetitions(step)
    && var text := engine.resolve(step.loop.value.condition, data);
       text.Some? && IsTruthy(text.value)
  }

  /** The record after the loops were looked at. */
  ghost predicate LoopOutcome(engine: Engine, step: Step, st: StepStatus, r: StepStatus, data: TemplateData) {
    if Repeats(engine, step, st, data)
    then r == st.(phase := Pending, iterations := st.iterations + 1, taskId := "", output := "", outputJson := "",
                  startTime := None, completionTime := None,
                  message := LoopIteration(st.iterations + 1, Repetitions(step)))
    else r == st
  }

  lemma LoopsMean(engine: Engine, step: Step, st: StepStatus, data: TemplateData)
    ensures LoopOutcome(engine, step, st,
                        if RepetitionDue(engine, step, st, data) then Rearm(st, LoopCap(step.loop.value)) else st, data)
  {
    hide IsTruthy;
  }

  // --- JSON output ----------------------------------------------------------------------------

  /** What is kept of an output as JSON: nothing without a schema, otherwise what extraction finds. */
  ghost predicate KeepsJson(engine: Engine, step: Step, st: StepStatus) {
    st.outputJson ==
    if step.outputSchema != "" && st.phase.Succeeded? then JsonExtract.ExtractJson(engine.validJson, st.output) else ""
  }

  lemma SchemaOfStep(spec: FlowSpec, i: nat)
    requires UniqueNames(spec) && i < |spec.steps|
    ensures HasSchema(spec, spec.steps[i].name) <==> spec.steps[i].outputSchema != ""
  {
  }

  /** Parsing gives a record without JSON its JSON, and leaves one that keeps its JSON alone. */
  lemma ParsedKeepsJson(engine: Engine, spec: FlowSpec, i: nat, st: StepStatus)
    requires UniqueNames(spec) && i < |spec.steps| && st.name == spec.steps[i].name
    requires st.outputJson == "" || KeepsJson(engine, spec.steps[i], st)
    ensures var r := ParseStep(engine, spec, st);
            KeepsJson(engine, spec.steps[i], r) && r == st.(outputJson := r.outputJson)
  {
    hide HasSchema, JsonExtract.ExtractJson;
    SchemaOfStep(spec, i);
    NoTextNoJson(engine);
  }

  /** A record that loses its success loses its output and its JSON. */
  lemma LoopedJson(engine: Engine, step: Step, st: StepStatus, r: StepStatus, data: TemplateData)
    requires KeepsJson(engine, step, st) && LoopOutcome(engine, step, st, r, data)
    ensures KeepsJson(engine, step, r) && r.name == st.name
  {
    hide Repeats, JsonExtract.ExtractJson;
  }

  lemma NoTextNoJson(engine: Engine)
    ensures JsonExtract.ExtractJson(engine.validJson, "") == ""
  {
    assert TrimSpace("") == "";
  }

  // --- Tokens ---------------------------------------------------------------------------------

  function Total(counts: seq<int>): (n: int) {
    if counts == [] then 0 else Total(counts[..|counts| - 1]) + counts[|counts| - 1]
  }

  /** The input tokens that the records account for. */
  ghost function SpentIn(steps: seq<StepStatus>): (n: int) {
    Total(seq(|steps|, i requires 0 <= i < |steps| =>
      match steps[i].tokenUsage case None => 0 case Some(u) => u.inputTokens))
  }

  ghost function SpentOut(steps: seq<StepStatus>): (n: int) {
    Total(seq(|steps|, i requires 0 <= i < |steps| =>
      match steps[i].tokenUsage case None => 0 case Some(u) => u.outputTokens))
  }

  lemma {:induction false} SumsAreTotals(steps: seq<StepStatus>)
    ensures InputTokens(steps) == SpentIn(steps) && OutputTokens(steps) == SpentOut(steps)
    ensures TokenSum(steps) == SpentIn(steps) + SpentOut(steps)
  {
    if steps != [] {
      var rest := steps[..|steps| - 1];
      SumsAreTotals(rest);
      var ins := seq(|steps|, i requires 0 <= i < |steps| =>
        match steps[i].tokenUsage case None => 0 case Some(u) => u.inputTokens);
      var outs := seq(|steps|, i requires 0 <= i < |steps| =>
        match steps[i].tokenUsage case None => 0 case Some(u) => u.outputTokens);
      assert ins[..|ins| - 1] == seq(|rest|, i requires 0 <= i < |rest| =>
        match rest[i].tokenUsage case None => 0 case Some(u) => u.inputTokens);
      assert outs[..|outs| - 1] == seq(|rest|, i requires 0 <= i < |rest| =>
        match rest[i].tokenUsage case None => 0 case Some(u) => u.outputTokens);
    }
  }

  // --- The end of a flow ----------------------------------------------------------------------

  /** The flow has a timeout, and the time is past it. */
  predicate Late(spec: FlowSpec, start: Time, now: Time) {
    spec.timeoutSeconds > 0 && now > start + spec.timeoutSeconds * 1_000_000_000
  }

  /** The flow has a budget, and its records account for more. */
  ghost predicate Overspent(spec: FlowSpec, steps: seq<StepStatus>) {
    spec.maxTokens > 0 && SpentIn(steps) + SpentOut(steps) > spec.maxTokens
  }

  ghost predicate SomeFailed(steps: seq<StepStatus>) {
    exists i :: 0 <= i < |steps| && steps[i].phase.Failed?
  }

  ghost predicate AllOver(steps: seq<StepStatus>) {
    forall i :: 0 <= i < |steps| ==> Over(steps[i])
  }

  /** How a flow ends, or goes on, when its phase is updated at the given time: late, then overspent, then
      failed, then over. */
  ghost predicate Decided(spec: FlowSpec, start: Time, was: FlowStatus, f: FlowStatus, now: Time) {
    if Late(spec, start, now)
    then f.phase.FlowFailed? && f.ready == Some(TimedOut) && f.completionTime == Some(now)
    else if Overspent(spec, f.steps)
    then f.phase.FlowFailed? && f.ready == Some(BudgetExceeded) && f.completionTime == Some(now)
    else if SomeFailed(f.steps)
    then f.phase.FlowFailed? && f.ready == Some(StepFailed) && f.completionTime == Some(now)
    else if AllOver(f.steps)
    then f.phase.FlowSucceeded? && f.ready == Some(AllSucceeded) && f.completionTime == Some(now)
    else f.phase == was.phase && f.ready == was.ready && f.completionTime == was.completionTime
  }

  /** The totals are recorded unless the flow is late or nothing was spent. */
  ghost predicate Recorded(spec: FlowSpec, start: Time, was: FlowStatus, f: FlowStatus, now: Time) {
    var i, o := SpentIn(f.steps), SpentOut(f.steps);
    f.totals == if !Late(spec, start, now) && (i > 0 || o > 0) then Some(TokenUsage(i, o, i + o)) else was.totals
  }

  /** A flow that has just succeeded outputs what its output template resolves to. */
  ghost predicate Outputs(engine: Engine, spec: FlowSpec, was: FlowStatus, f: FlowStatus, data: TemplateData) {
    f.output == if was.phase == f.phase || !f.phase.FlowSucceeded? || spec.output == "" then was.output
                else match engine.resolve(spec.output, data) case None => "" case Some(text) => text
  }

  lemma UpdateDecides(engine: Engine, spec: FlowSpec, st: FlowStatus, data: TemplateData, now: Time)
    requires st.startTime.Some? && !st.phase.Terminal()
    ensures var f := PhaseUpdated(engine, spec, st, data, now);
            && f.steps == st.steps && f.startTime == st.startTime
            && Decided(spec, st.startTime.value, st, f, now)
            && Recorded(spec, st.startTime.value, st, f, now)
            && Outputs(engine, spec, st, f, data)
  {
    hide InputTokens, OutputTokens, SpentIn, SpentOut;
    SumsAreTotals(st.steps);
  }

  /** Why a flow has ended, exactly; the reason of its condition says no less. */
  ghost predicate EndIsExact(spec: FlowSpec, st: FlowStatus) {
    && (st.phase.FlowSucceeded? || st.phase.FlowFailed? ==> st.startTime.Some? && st.completionTime.Some?)
    && (st.phase.FlowSucceeded? ==>
          && AllOver(st.steps) && !Late(spec, st.startTime.value, st.completionTime.value)
          && !Overspent(spec, st.steps))
    && (st.phase.FlowFailed? ==>
          Late(spec, st.startTime.value, st.completionTime.value) || Overspent(spec, st.steps) || SomeFailed(st.steps))
    && (st.ready == Some(TimedOut) ==>
          st.phase.FlowFailed? && Late(spec, st.startTime.value, st.completionTime.value))
    && (st.ready == Some(BudgetExceeded) ==> st.phase.FlowFailed? && Overspent(spec, st.steps))
    && (st.ready == Some(StepFailed) ==> st.phase.FlowFailed? && SomeFailed(st.steps))
    && (st.ready == Some(AllSucceeded) ==> st.phase.FlowSucceeded?)
  }

  lemma DecidedEndIsExact(spec: FlowSpec, was: FlowStatus, f: FlowStatus, now: Time)
    requires was.startTime.Some? && f.startTime == was.startTime && Decided(spec, was.startTime.value, was, f, now)
    requires !was.phase.FlowSucceeded? && !was.phase.FlowFailed? && EndIsExact(spec, was)
    ensures EndIsExact(spec, f)
  {
    hide SpentIn, SpentOut;
  }

  /** Templates see the records of the succeeded steps as they are. */
  ghost predicate SeesSucceeded(engine: Engine, spec: FlowSpec, data: TemplateData, steps: seq<StepStatus>) {
    && data.input == spec.input && |steps| == |spec.steps|
    && forall i :: 0 <= i < |steps| && steps[i].phase.Succeeded? ==>
         && spec.steps[i].name in data.steps
         && var seen := data.steps[spec.steps[i].name];
            && seen.output == steps[i].output
            && seen.data == if steps[i].outputJson != "" && engine.validJson(steps[i].outputJson)
                            then Some(steps[i].outputJson) else None
  }

  lemma SeenAtEnd(engine: Engine, spec: FlowSpec, data: TemplateData, seen: seq<StepStatus>, steps: seq<StepStatus>)
    requires |steps| == |spec.steps| && Sees(engine, spec, data, seen)
    requires forall i :: 0 <= i < |steps| && steps[i].phase.Succeeded? ==> steps[i] == seen[i]
    requires LoopFree(spec) ==>
               forall i :: 0 <= i < |steps| ==>
                 steps[i].output == seen[i].output && steps[i].outputJson == seen[i].outputJson
    ensures SeesSucceeded(engine, spec, data, steps) && (LoopFree(spec) ==> Sees(engine, spec, data, steps))
  {
  }

  /** The output template of the flow, resolved; an error or the lack of a template give no text. */
  function OutputText(engine: Engine, spec: FlowSpec, data: TemplateData): (text: string) {
    if spec.output == "" then ""
    else match engine.resolve(spec.output, data) case None => "" case Some(text) => text
  }

  /** A succeeded flow outputs its output template, resolved under the outputs of its steps; any other flow
      has no output. */
  ghost predicate OutputIsExact(engine: Engine, spec: FlowSpec, st: FlowStatus) {
    if st.phase.FlowSucceeded?
    then exists data ::
           && SeesSucceeded(engine, spec, data, st.steps) && (LoopFree(spec) ==> Sees(engine, spec, data, st.steps))
           && st.output == OutputText(engine, spec, data)
    else st.output == ""
  }
}

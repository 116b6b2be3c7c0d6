/** The step-level logic that the controller and the local executor share, as functions on values. */
module FlowLogic {
  import opened FlowTypes
  import opened Templates
  import JsonExtract

  const DEFAULT_MAX_ITERATIONS := 10

  // --- Name lookup ----------------------------------------------------------------------------

  /** The position each name denotes; the last record of a name wins. */
  function LastIndex(names: seq<string>): (ix: map<string, nat>)
    ensures forall n :: n in ix <==> n in names
    ensures forall n :: n in ix ==> ix[n] < |names| && names[ix[n]] == n
  {
    if names == [] then map[]
    else
      var last := |names| - 1;
      assert names == names[..last] + [names[last]];
      LastIndex(names[..last])[names[last] := last]
  }

  /** No later record has the name that a position stands for. */
  lemma {:induction false} LastIndexIsLast(names: seq<string>, n: string, j: nat)
    requires n in LastIndex(names) && LastIndex(names)[n] < j < |names|
    ensures names[j] != n
  {
    hide LastIndex;
    var last := |names| - 1;
    LastIndexUnfolds(names);
    assert LastIndex(names[..last])[names[last] := last] == LastIndex(names);
    if j < last {
      assert n != names[last];
      LastIndexIsLast(names[..last], n, j);
    }
  }

  lemma LastIndexUnfolds(names: seq<string>)
    requires names != []
    ensures LastIndex(names) == LastIndex(names[..|names| - 1])[names[|names| - 1] := |names| - 1]
  {
  }

  /** `BuildStatusByName`: a Go pointer into the step slice is a position here. */
  function StatusByName(steps: seq<StepStatus>): (ix: map<string, nat>)
    ensures Pointers(ix, steps)
  {
    LastIndex(StatusNames(steps))
  }

  ghost predicate Pointers(ix: map<string, nat>, steps: seq<StepStatus>) {
    forall n :: n in ix ==> ix[n] < |steps| && steps[ix[n]].name == n
  }

  /** Each step of the spec is denoted by its own name. */
  ghost predicate Faithful(spec: FlowSpec, ix: map<string, nat>) {
    && (forall i :: 0 <= i < |spec.steps| ==> spec.steps[i].name in ix && ix[spec.steps[i].name] == i)
    && (forall n :: n in ix ==> ix[n] < |spec.steps| && spec.steps[ix[n]].name == n)
  }

  /** The records of a started flow: one for each step of the spec, in spec order. */
  ghost predicate Mirrors(spec: FlowSpec, steps: seq<StepStatus>) {
    |steps| == |spec.steps| && forall i :: 0 <= i < |steps| ==> steps[i].name == spec.steps[i].name
  }

  lemma UniqueNamesAreFaithful(spec: FlowSpec, steps: seq<StepStatus>)
    requires UniqueNames(spec) && Mirrors(spec, steps)
    ensures Faithful(spec, StatusByName(steps))
  {
    var ix := StatusByName(steps);
    var names := StatusNames(steps);
    forall i | 0 <= i < |spec.steps|
      ensures spec.steps[i].name in ix && ix[spec.steps[i].name] == i
    {
      assert names[i] in names;
    }
  }

  // --- Dependencies ---------------------------------------------------------------------------

  predicate DepDone(dep: string, steps: seq<StepStatus>, ix: map<string, nat>)
    requires Pointers(ix, steps)
  {
    dep in ix && steps[ix[dep]].phase.Done()
  }

  predicate DepsSucceeded(deps: seq<string>, steps: seq<StepStatus>, ix: map<string, nat>)
    requires Pointers(ix, steps)
  {
    forall d :: d in deps ==> DepDone(d, steps, ix)
  }

  // --- Starting -------------------------------------------------------------------------------

  function NewStatus(step: Step): (st: StepStatus) {
    StepStatus(step.name, Pending, "", "", "", None, None, NoMessage, 0, None)
  }

  function InitialSteps(spec: FlowSpec): (steps: seq<StepStatus>)
    ensures Mirrors(spec, steps)
  {
    seq(|spec.steps|, i requires 0 <= i < |spec.steps| => NewStatus(spec.steps[i]))
  }

  function Initialized(spec: FlowSpec, st: FlowStatus, now: Time): (r: FlowStatus) {
    if !st.phase.Unset? then st
    else st.(phase := FlowRunning, startTime := Some(now), steps := InitialSteps(spec), ready := Some(Validated))
  }

  // --- JSON output ----------------------------------------------------------------------------

  predicate HasSchema(spec: FlowSpec, name: string) {
    exists i :: 0 <= i < |spec.steps| && spec.steps[i].name == name && spec.steps[i].outputSchema != ""
  }

  /** What `ParseOutputJSON` stores for a reply. */
  function ParsedJson(engine: Engine, output: string): (r: string) {
    JsonExtract.ExtractJson(engine.validJson, output)
  }

  function ParseStep(engine: Engine, spec: FlowSpec, st: StepStatus): (r: StepStatus) {
    if HasSchema(spec, st.name) && st.phase.Succeeded? && st.output != "" && st.outputJson == ""
    then st.(outputJson := ParsedJson(engine, st.output))
    else st
  }

  /** `ParseOutputJSON` treats each record that a name denotes on its own. */
  function ParseAll(engine: Engine, spec: FlowSpec, steps: seq<StepStatus>, ix: map<string, nat>)
    : (r: seq<StepStatus>)
  {
    seq(|steps|, i requires 0 <= i < |steps| =>
      if i in ix.Values then ParseStep(engine, spec, steps[i]) else steps[i])
  }

  // --- Template data --------------------------------------------------------------------------

  function StepEntry(engine: Engine, st: StepStatus): (d: StepData) {
    StepData(st.output, if st.outputJson != "" && engine.validJson(st.outputJson) then Some(st.outputJson) else None)
  }

  function DataOf(engine: Engine, spec: FlowSpec, steps: seq<StepStatus>, ix: map<string, nat>): (d: TemplateData)
    requires Pointers(ix, steps)
  {
    TemplateData(spec.input, map n | n in ix :: StepEntry(engine, steps[ix[n]]))
  }

  // --- Loops ----------------------------------------------------------------------------------

  /** How often a looped step may be repeated. */
  function LoopCap(loop: LoopSpec): (cap: int)
    ensures cap > 0
  {
    if loop.maxIterations <= 0 then DEFAULT_MAX_ITERATIONS else loop.maxIterations
  }

  /** The cap of any step: an unlooped one is never repeated. */
  function EffectiveMax(step: Step): (cap: nat) {
    if step.loop.Some? then LoopCap(step.loop.value) else 0
  }

  predicate RepetitionDue(engine: Engine, step: Step, st: StepStatus, data: TemplateData) {
    && step.loop.Some?
    && st.phase.Succeeded?
    && st.iterations < LoopCap(step.loop.value)
    && Holds(engine, step.loop.value.condition, data)
  }

  function Rearm(st: StepStatus, cap: int): (r: StepStatus) {
    st.(iterations := st.iterations + 1, phase := Pending, taskId := "", output := "", outputJson := "",
        startTime := None, completionTime := None, message := LoopIteration(st.iterations + 1, cap))
  }

  function LoopStep(engine: Engine, step: Step, steps: seq<StepStatus>, ix: map<string, nat>, data: TemplateData)
    : (r: seq<StepStatus>)
    requires Pointers(ix, steps)
    ensures Pointers(ix, r) && |r| == |steps|
  {
    if step.name in ix && RepetitionDue(engine, step, steps[ix[step.name]], data)
    then steps[ix[step.name] := Rearm(steps[ix[step.name]], LoopCap(step.loop.value))]
    else steps
  }

  /** The records after `EvaluateLoops` has looked at the first k steps of the spec. */
  function LoopsUpTo(engine: Engine, spec: FlowSpec, steps: seq<StepStatus>, ix: map<string, nat>, data: TemplateData,
                     k: nat)
    : (r: seq<StepStatus>)
    requires k <= |spec.steps| && Pointers(ix, steps)
    ensures Pointers(ix, r) && |r| == |steps|
  {
    if k == 0 then steps
    else LoopStep(engine, spec.steps[k - 1], LoopsUpTo(engine, spec, steps, ix, data, k - 1), ix, data)
  }

  function LoopsEvaluated(engine: Engine, spec: FlowSpec, steps: seq<StepStatus>, ix: map<string, nat>,
                          data: TemplateData)
    : (r: seq<StepStatus>)
    requires Pointers(ix, steps)
    ensures Pointers(ix, r) && |r| == |steps|
  {
    LoopsUpTo(engine, spec, steps, ix, data, |spec.steps|)
  }

  // --- Conditions -----------------------------------------------------------------------------

  /** A step whose `if` is present and falsy (or does not resolve) is skipped. */
  predicate SkipsStep(engine: Engine, step: Step, data: TemplateData) {
    step.ifCondition != "" && !Holds(engine, step.ifCondition, data)
  }

  function SkipStep(st: StepStatus, now: Time): (r: StepStatus) {
    st.(phase := Skipped, completionTime := Some(now), message := SkippedByCondition)
  }

  // --- Flow phase -----------------------------------------------------------------------------

  function InputTokens(steps: seq<StepStatus>): (n: int) {
    if steps == [] then 0
    else
      var last := |steps| - 1;
      InputTokens(steps[..last]) +
      (if steps[last].tokenUsage.Some? then steps[last].tokenUsage.value.inputTokens else 0)
  }

  function OutputTokens(steps: seq<StepStatus>): (n: int) {
    if steps == [] then 0
    else
      var last := |steps| - 1;
      OutputTokens(steps[..last]) +
      (if steps[last].tokenUsage.Some? then steps[last].tokenUsage.value.outputTokens else 0)
  }

  function TokenSum(steps: seq<StepStatus>): (n: int) {
    InputTokens(steps) + OutputTokens(steps)
  }

  /** The totals recorded for the given step sums; without any usage the old totals stay. */
  function Totals(steps: seq<StepStatus>, before: Option<TokenUsage>): (r: Option<TokenUsage>) {
    if InputTokens(steps) > 0 || OutputTokens(steps) > 0
    then Some(TokenUsage(InputTokens(steps), OutputTokens(steps), TokenSum(steps)))
    else before
  }

  function Deadline(spec: FlowSpec, start: Time): (t: Time) {
    start + spec.timeoutSeconds * NANOS_PER_SECOND
  }

  predicate Overdue(spec: FlowSpec, st: FlowStatus, now: Time) {
    spec.timeoutSeconds > 0 && st.startTime.Some? && now > Deadline(spec, st.startTime.value)
  }

  predicate OverBudget(spec: FlowSpec, steps: seq<StepStatus>) {
    spec.maxTokens > 0 && TokenSum(steps) > spec.maxTokens
  }

  predicate AnyFailed(steps: seq<StepStatus>) {
    exists i :: 0 <= i < |steps| && steps[i].phase.Failed?
  }

  /** No record is Pending or Running. */
  predicate AllSettled(steps: seq<StepStatus>) {
    forall i :: 0 <= i < |steps| ==> steps[i].phase.Done() || steps[i].phase.Failed?
  }

  predicate AllDone(steps: seq<StepStatus>) {
    forall i :: 0 <= i < |steps| ==> steps[i].phase.Done()
  }

  function FlowOutput(engine: Engine, spec: FlowSpec, data: TemplateData, before: string): (r: string) {
    if spec.output == "" then before
    else
      var out := engine.resolve(spec.output, data);
      if out.Some? then out.value else ""
  }

  /** `UpdateFlowPhase`, by the outcome it decides. */
  function PhaseUpdated(engine: Engine, spec: FlowSpec, st: FlowStatus, data: TemplateData, now: Time)
    : (r: FlowStatus)
  {
    if Overdue(spec, st, now) then
      st.(phase := FlowFailed, completionTime := Some(now), ready := Some(TimedOut))
    else
      var s := st.(totals := Totals(st.steps, st.totals));
      if OverBudget(spec, st.steps) then
        s.(phase := FlowFailed, completionTime := Some(now), ready := Some(BudgetExceeded))
      else if AnyFailed(st.steps) then
        s.(phase := FlowFailed, completionTime := Some(now), ready := Some(StepFailed))
      else if AllDone(st.steps) then
        s.(phase := FlowSucceeded, completionTime := Some(now), ready := Some(AllSucceeded),
           output := FlowOutput(engine, spec, data, st.output))
      else s
  }

  // --- Facts about the folds ------------------------------------------------------------------

  lemma SameLength(spec: FlowSpec, steps: seq<StepStatus>)
    requires Mirrors(spec, steps)
    ensures |steps| == |spec.steps|
  {
  }

  lemma LoopsUnfold(engine: Engine, spec: FlowSpec, steps: seq<StepStatus>, ix: map<string, nat>, data: TemplateData,
                    k: nat)
    requires k <= |spec.steps| && Pointers(ix, steps)
    ensures k == 0 ==> LoopsUpTo(engine, spec, steps, ix, data, k) == steps
    ensures k > 0 ==> LoopsUpTo(engine, spec, steps, ix, data, k) ==
                      LoopStep(engine, spec.steps[k - 1], LoopsUpTo(engine, spec, steps, ix, data, k - 1), ix, data)
  {
    hide LoopStep;
  }

  lemma LoopStepTouchesOne(engine: Engine, spec: FlowSpec, steps: seq<StepStatus>, ix: map<string, nat>,
                           data: TemplateData, k: nat)
    requires k < |spec.steps| && |steps| == |spec.steps| && Faithful(spec, ix) && Pointers(ix, steps)
    ensures LoopStep(engine, spec.steps[k], steps, ix, data) ==
            if RepetitionDue(engine, spec.steps[k], steps[k], data)
            then steps[k := Rearm(steps[k], LoopCap(spec.steps[k].loop.value))] else steps
  {
    hide Rearm;
    assert ix[spec.steps[k].name] == k;
  }

  /** With unique names every step is re-armed on its own, exactly when a repetition is due. */
  lemma {:induction false} LoopsPointwise(engine: Engine, spec: FlowSpec, steps: seq<StepStatus>, ix: map<string, nat>,
                                          data: TemplateData, k: nat, i: nat)
    requires k <= |spec.steps| && Mirrors(spec, steps) && Faithful(spec, ix) && i < |steps|
    requires Pointers(ix, steps)
    ensures LoopsUpTo(engine, spec, steps, ix, data, k)[i] ==
            if i < k && RepetitionDue(engine, spec.steps[i], steps[i], data)
            then Rearm(steps[i], LoopCap(spec.steps[i].loop.value))
            else steps[i]
  {
    hide LoopsUpTo, LoopStep, RepetitionDue, Rearm, LoopCap, Faithful, Mirrors;
    LoopsUnfold(engine, spec, steps, ix, data, k);
    if k > 0 {
      assert |steps| == |spec.steps| by { SameLength(spec, steps); }
      var before := LoopsUpTo(engine, spec, steps, ix, data, k - 1);
      LoopsPointwise(engine, spec, steps, ix, data, k - 1, i);
      LoopStepTouchesOne(engine, spec, before, ix, data, k - 1);
    }
  }

  lemma LoopsEvaluatedPointwise(engine: Engine, spec: FlowSpec, steps: seq<StepStatus>, ix: map<string, nat>,
                                data: TemplateData)
    requires Mirrors(spec, steps) && Faithful(spec, ix) && Pointers(ix, steps)
    ensures var r := LoopsEvaluated(engine, spec, steps, ix, data);
            && Mirrors(spec, r)
            && forall i :: 0 <= i < |steps| ==>
                 r[i] == if RepetitionDue(engine, spec.steps[i], steps[i], data)
                         then Rearm(steps[i], LoopCap(spec.steps[i].loop.value)) else steps[i]
  {
    hide IsTruthy, LoopsUpTo;
    var r := LoopsEvaluated(engine, spec, steps, ix, data);
    forall i | 0 <= i < |steps|
      ensures r[i] == if RepetitionDue(engine, spec.steps[i], steps[i], data)
                      then Rearm(steps[i], LoopCap(spec.steps[i].loop.value)) else steps[i]
    {
      LoopsPointwise(engine, spec, steps, ix, data, |spec.steps|, i);
    }
  }

  lemma ParsePointwise(engine: Engine, spec: FlowSpec, steps: seq<StepStatus>, ix: map<string, nat>)
    requires Mirrors(spec, steps) && Faithful(spec, ix)
    ensures forall i :: 0 <= i < |steps| ==>
              ParseAll(engine, spec, steps, ix)[i] == ParseStep(engine, spec, steps[i])
    ensures Mirrors(spec, ParseAll(engine, spec, steps, ix))
  {
    forall i | 0 <= i < |steps|
      ensures ParseAll(engine, spec, steps, ix)[i] == ParseStep(engine, spec, steps[i])
    {
      assert spec.steps[i].name in ix && i in ix.Values;
    }
  }

  lemma PhaseMeaning(engine: Engine, spec: FlowSpec, st: FlowStatus, data: TemplateData, now: Time)
    ensures var r := PhaseUpdated(engine, spec, st, data, now);
            && r.steps == st.steps && r.startTime == st.startTime
            && (!st.phase.Terminal() && r.phase.FlowSucceeded? ==>
                  && AllDone(r.steps) && r.completionTime == Some(now)
                  && (spec.timeoutSeconds > 0 && st.startTime.Some? ==> now <= Deadline(spec, st.startTime.value))
                  && (spec.maxTokens > 0 ==> TokenSum(r.steps) <= spec.maxTokens))
            && (AllSettled(st.steps) || AnyFailed(st.steps) ==> r.phase.Terminal())
            && (!st.phase.Terminal() && r.phase.Terminal() ==> r.completionTime == Some(now))
            && (!r.phase.Terminal() ==> r.phase == st.phase)
  {
  }
}

/** What a batch of the local executor does, in terms of templates, replies and clocks, and what the records
    and the log of every run say about the agents' replies. */
module LocalMeaning {
  import opened FlowTypes
  import opened Templates
  import opened FlowLogic
  import opened StepMeaning
  import opened LocalExecutor
  import opened LocalRuns
  import JsonExtract

  // --- A round --------------------------------------------------------------------------------

  /** What a round makes of step i: a step that is not pending or not released is left alone, a false
      condition skips it, and otherwise it is ready. */
  ghost predicate RoundOutcome(engine: Engine, spec: FlowSpec, before: seq<StepStatus>, r: Round, i: nat,
                               data: TemplateData, now: Time)
    requires i < |spec.steps| == |before| == |r.steps|
  {
    var st := before[i];
    if !st.phase.Pending? || !Released(spec, before, r.steps, i) then r.steps[i] == st && i !in r.ready
    else if ConditionFalse(engine, spec.steps[i], data) then
      i !in r.ready
      && r.steps[i] == st.(phase := Skipped, completionTime := Some(now), message := SkippedByCondition)
    else r.steps[i] == st && i in r.ready
  }

  lemma RoundMeans(engine: Engine, spec: FlowSpec, steps: seq<StepStatus>, ix: map<string, nat>, data: TemplateData,
                   clock: nat -> Time, i: nat)
    requires Faithful(spec, ix) && Pointers(ix, steps) && i < |spec.steps| && Mirrors(spec, steps)
    ensures RoundOutcome(engine, spec, steps, ReadyUpTo(engine, spec, steps, ix, data, clock, |spec.steps|), i, data,
                         clock(i))
  {
    hide ReadyUpTo, SkipsStep, DepsSucceeded, ConditionFalse, Released;
    var r := ReadyUpTo(engine, spec, steps, ix, data, clock, |spec.steps|);
    var turn := ReadyUpTo(engine, spec, steps, ix, data, clock, i);
    ReadyFate(engine, spec, steps, ix, data, clock, i);
    forall j | 0 <= j < |spec.steps| ensures turn.steps[j] == if j < i then r.steps[j] else steps[j] {
      DepAtTurn(engine, spec, steps, ix, data, clock, i, j);
    }
    ReleasedIsDepsSucceeded(spec, steps, r.steps, turn.steps, ix, i);
    SkippingIsConditionFalse(engine, spec.steps[i], data);
  }

  // --- Running --------------------------------------------------------------------------------

  /** The prompt the agent of a step receives: the rendered one, or nothing when an input fails. */
  ghost predicate LocalPrompt(engine: Engine, step: Step, data: TemplateData, prompt: string) {
    if Unresolvable(engine, step, data) then prompt == "" else Rendered(engine, step, data, prompt)
  }

  lemma PromptMeans(engine: Engine, step: Step, data: TemplateData)
    ensures LocalPrompt(engine, step, data, PromptOrEmpty(engine, step, data))
  {
    hide ResolvePrompt, Rendered, Unresolvable;
    PromptIsRendered(engine, step, data);
  }

  /** The record of a step that ran and got the reply: a success keeps the output and the counts of the
      reply, a failure its error. */
  ghost predicate RunOutcome(st: StepStatus, r: StepStatus, reply: Reply, started: Time, done: Time) {
    match reply.error
    case Some(error) =>
      r == st.(phase := Failed, startTime := Some(started), completionTime := Some(done), message := AgentError(error))
    case None =>
      r == st.(phase := Succeeded, startTime := Some(started), completionTime := Some(done), output := reply.output,
               tokenUsage := Some(TokenUsage(reply.inputTokens, reply.outputTokens,
                                             reply.inputTokens + reply.outputTokens)))
  }

  /** Step i ran in batch n: its agent was asked the prompt, its reply arrived, and its JSON was parsed. */
  ghost predicate RanOutcome(env: LocalEnv, spec: FlowSpec, before: seq<StepStatus>, ready: seq<nat>,
                             data: TemplateData, n: nat, i: nat, ran: StepStatus)
    requires i < |spec.steps| && i < |before| && Permutation(env.arrivals(n, |ready|), |ready|)
  {
    exists prompt, m: nat, j: nat ::
      && LocalPrompt(env.engine, spec.steps[i], data, prompt)
      && m < |ready| && ready[m] == i && j < |ready| && env.arrivals(n, |ready|)[j] == m
      && RunOutcome(before[i], ran, env.agent(n, i, prompt), env.clock(n).start(m), env.clock(n).done(j))
  }

  lemma RanMeans(env: LocalEnv, spec: FlowSpec, b: Bench, ix: map<string, nat>, data: TemplateData, n: nat,
                 ready: seq<nat>, i: nat)
    requires Faithful(spec, ix) && Pointers(ix, b.steps) && Mirrors(spec, b.steps)
    requires Runnable(spec, ix, ready) && Ascending(ready) && Permutation(env.arrivals(n, |ready|), |ready|)
    requires i < |spec.steps|
    ensures var r := Ran(env, spec, b, ix, data, n, ready).steps[i];
            if i in ready then RanOutcome(env, spec, b.steps, ready, data, n, i, r) else r == b.steps[i]
  {
    hide Ran, PromptOrEmpty, LocalPrompt;
    RanPointwise(env, spec, b, ix, data, n, ready, i);
    PromptMeans(env.engine, spec.steps[i], data);
    if i in ready {
      var r := Ran(env, spec, b, ix, data, n, ready).steps[i];
      var prompt := PromptOrEmpty(env.engine, spec.steps[i], data);
      var m: nat, j: nat :| m < |ready| && ready[m] == i && j < |ready| && env.arrivals(n, |ready|)[j] == m
        && r == FinishStep(StartStep(b.steps[i], env.clock(n).start(m)), ReplyTo(env, spec, data, n, i),
                           env.clock(n).done(j));
      assert RunOutcome(b.steps[i], r, env.agent(n, i, prompt), env.clock(n).start(m), env.clock(n).done(j));
    }
  }

  // --- A batch --------------------------------------------------------------------------------

  ghost predicate JsonKept(engine: Engine, spec: FlowSpec, steps: seq<StepStatus>) {
    |steps| == |spec.steps| && forall i :: 0 <= i < |steps| ==> KeepsJson(engine, spec.steps[i], steps[i])
  }

  /** What batch n does to step i, stage by stage. */
  ghost predicate StagesOf(env: LocalEnv, spec: FlowSpec, s: LocalState, n: nat, t: BatchTrace, i: nat)
    requires i < |spec.steps| == |s.status.steps| == |t.looped| == |t.round.steps| == |t.bench.steps|
    requires |t.final.status.steps| == |spec.steps| && EveryResultArrives(env)
  {
    var engine, step := env.engine, spec.steps[i];
    var ran, r := t.bench.steps[i], t.final.status.steps[i];
    && LoopOutcome(engine, step, s.status.steps[i], t.looped[i], t.data)
    && RoundOutcome(engine, spec, t.looped, t.round, i, t.data, env.clock(n).skip(i))
    && (if i in t.round.ready then RanOutcome(env, spec, t.round.steps, t.round.ready, t.data, n, i, ran)
        else ran == t.round.steps[i])
    && r == ran.(outputJson := r.outputJson) && KeepsJson(engine, step, r)
  }

  lemma BatchStagesMean(env: LocalEnv, spec: FlowSpec, s: LocalState, n: nat, i: nat)
    requires EveryResultArrives(env) && UniqueNames(spec) && Settled(spec, s.status.steps) && i < |spec.steps|
    requires JsonKept(env.engine, spec, s.status.steps)
    ensures var t := Batch(env, spec, s, n);
            && |spec.steps| == |t.looped| == |t.round.steps| == |t.bench.steps| == |t.final.status.steps|
            && StagesOf(env, spec, s, n, t, i)
  {
    hide Batch, ReadyUpTo, RepetitionDue, Rearm, LoopCap, LoopOutcome, RoundOutcome, RanOutcome, KeepsJson, ParseStep,
      Permutation;
    var t := Batch(env, spec, s, n);
    BatchKeepsSettled(env, spec, s, n);
    BatchStages(env, spec, s, n);
    LoopsMean(env.engine, spec.steps[i], s.status.steps[i], t.data);
    RoundMeans(env.engine, spec, t.looped, t.ix, t.data, env.clock(n).skip, i);
    BatchRan(env, spec, s, n, i);
    LoopedJson(env.engine, spec.steps[i], s.status.steps[i], t.looped[i], t.data);
    RoundJson(env.engine, spec, t.looped, t.round, i, t.data, env.clock(n).skip(i));
    RanJson(env, spec, t.round.steps, t.round.ready, t.data, n, i, t.bench.steps[i]);
    ParsedKeepsJson(env.engine, spec, i, t.bench.steps[i]);
    if i !in t.round.ready {
      JsonIsStable(env.engine, spec, i, t.bench.steps[i]);
    }
  }

  lemma RoundJson(engine: Engine, spec: FlowSpec, before: seq<StepStatus>, r: Round, i: nat, data: TemplateData,
                  now: Time)
    requires i < |spec.steps| == |before| == |r.steps| && KeepsJson(engine, spec.steps[i], before[i])
    requires RoundOutcome(engine, spec, before, r, i, data, now)
    ensures KeepsJson(engine, spec.steps[i], r.steps[i]) && r.steps[i].name == before[i].name
    ensures i in r.ready ==> r.steps[i].phase.Pending?
  {
    hide Released, ConditionFalse;
  }

  lemma RanJson(env: LocalEnv, spec: FlowSpec, before: seq<StepStatus>, ready: seq<nat>, data: TemplateData, n: nat,
                i: nat, ran: StepStatus)
    requires i < |spec.steps| && i < |before| && Permutation(env.arrivals(n, |ready|), |ready|)
    requires KeepsJson(env.engine, spec.steps[i], before[i]) && before[i].name == spec.steps[i].name
    requires if i in ready then before[i].phase.Pending? && RanOutcome(env, spec, before, ready, data, n, i, ran)
             else ran == before[i]
    ensures ran.name == spec.steps[i].name && (ran.outputJson == "" || KeepsJson(env.engine, spec.steps[i], ran))
    ensures i !in ready ==> KeepsJson(env.engine, spec.steps[i], ran)
  {
  }

  /** Parsing changes nothing about a record that keeps its JSON. */
  lemma JsonIsStable(engine: Engine, spec: FlowSpec, i: nat, st: StepStatus)
    requires UniqueNames(spec) && i < |spec.steps| && st.name == spec.steps[i].name
    requires KeepsJson(engine, spec.steps[i], st)
    ensures ParseStep(engine, spec, st) == st
  {
    hide HasSchema, JsonExtract.ExtractJson;
    SchemaOfStep(spec, i);
  }

  lemma BatchRan(env: LocalEnv, spec: FlowSpec, s: LocalState, n: nat, i: nat)
    requires EveryResultArrives(env) && UniqueNames(spec) && Mirrors(spec, s.status.steps) && i < |spec.steps|
    ensures var t := Batch(env, spec, s, n);
            && |spec.steps| == |t.round.steps| == |t.bench.steps| == |t.final.status.steps|
            && Permutation(env.arrivals(n, |t.round.ready|), |t.round.ready|)
            && (if i in t.round.ready
                then && RanOutcome(env, spec, t.round.steps, t.round.ready, t.data, n, i, t.bench.steps[i])
                     && t.final.status.steps[i] == ParseStep(env.engine, spec, t.bench.steps[i])
                else && t.bench.steps[i] == t.round.steps[i]
                     && (t.final.status.steps[i] == t.round.steps[i]
                         || t.final.status.steps[i] == ParseStep(env.engine, spec, t.round.steps[i])))
  {
    hide IsTruthy, ReadyUpTo, Ran, LoopsEvaluated, Closed, DataOf, StatusByName, PhaseUpdated, RepetitionDue, Rearm,
      RanOutcome, ParseStep;
    var t := Batch(env, spec, s, n);
    BatchStages(env, spec, s, n);
    BatchResults(env, spec, s, n, i);
    if t.round.ready != [] {
      RanMeans(env, spec, Bench(t.round.steps, s.log), t.ix, t.data, n, t.round.ready, i);
    }
  }

  /** The phase of the flow after a batch. */
  lemma BatchDecides(env: LocalEnv, spec: FlowSpec, s: LocalState, n: nat)
    requires EveryResultArrives(env) && s.status.startTime.Some? && !s.status.phase.Terminal()
    ensures var f := Batch(env, spec, s, n).final.status;
            && f.startTime == s.status.startTime
            && Decided(spec, s.status.startTime.value, s.status, f, env.clock(n).finish)
            && Recorded(spec, s.status.startTime.value, s.status, f, env.clock(n).finish)
  {
    hide IsTruthy, ReadyUpTo, Ran, LoopsEvaluated, DataOf, StatusByName, PhaseUpdated, ParseAll, Decided, Recorded,
      Outputs;
    var t := Batch(env, spec, s, n);
    var was, data := UpdateOfBatch(env, spec, s, n);
    UpdateDecides(env.engine, spec, was, data, env.clock(n).finish);
    DecidedFromSteps(spec, s.status, was, t.final.status, env.clock(n).finish);
  }

  /** The update that ends a batch. */
  lemma UpdateOfBatch(env: LocalEnv, spec: FlowSpec, s: LocalState, n: nat)
    returns (was: FlowStatus, data: TemplateData)
    requires EveryResultArrives(env)
    ensures was == s.status.(steps := was.steps)
    ensures Batch(env, spec, s, n).final.status == PhaseUpdated(env.engine, spec, was, data, env.clock(n).finish)
    ensures var t := Batch(env, spec, s, n);
            if t.round.ready == [] then was.steps == t.round.steps && data == t.data
            else Pointers(t.ix, was.steps) && data == DataOf(env.engine, spec, was.steps, t.ix)
  {
    hide IsTruthy, ReadyUpTo, Ran, LoopsEvaluated, DataOf, StatusByName, PhaseUpdated, ParseAll, Closed;
    var t := Batch(env, spec, s, n);
    if t.round.ready == [] {
      was, data := s.status.(steps := t.round.steps), t.data;
    } else {
      was, data := UpdateOfClosed(env, spec, s.status, t.bench.steps, t.ix, n);
    }
  }

  lemma UpdateOfClosed(env: LocalEnv, spec: FlowSpec, st: FlowStatus, ran: seq<StepStatus>, ix: map<string, nat>,
                       n: nat)
    returns (was: FlowStatus, data: TemplateData)
    requires Pointers(ix, ran)
    ensures was == st.(steps := was.steps)
    ensures Closed(env, spec, st, ran, ix, n) == PhaseUpdated(env.engine, spec, was, data, env.clock(n).finish)
    ensures Pointers(ix, was.steps) && data == DataOf(env.engine, spec, was.steps, ix)
  {
    hide HasSchema, ParsedJson, PhaseUpdated, DataOf;
    was := st.(steps := ParseAll(env.engine, spec, ran, ix));
    data := DataOf(env.engine, spec, was.steps, ix);
  }

  lemma DecidedFromSteps(spec: FlowSpec, st: FlowStatus, was: FlowStatus, f: FlowStatus, now: Time)
    requires was == st.(steps := was.steps) && st.startTime.Some?
    requires Decided(spec, st.startTime.value, was, f, now) && Recorded(spec, st.startTime.value, was, f, now)
    ensures Decided(spec, st.startTime.value, st, f, now) && Recorded(spec, st.startTime.value, st, f, now)
  {
  }

  lemma BatchOutputs(env: LocalEnv, spec: FlowSpec, s: LocalState, n: nat)
    requires EveryResultArrives(env) && UniqueNames(spec) && Settled(spec, s.status.steps)
    requires JsonKept(env.engine, spec, s.status.steps)
    requires s.status.startTime.Some? && !s.status.phase.Terminal() && s.status.output == ""
    ensures OutputIsExact(env.engine, spec, Batch(env, spec, s, n).final.status)
  {
    hide Batch, PhaseUpdated, Decided, Recorded, Sees, SeesSucceeded, ParseAll, DataOf, JsonKept, OutputText, Settled;
    var t := Batch(env, spec, s, n);
    var was, data := UpdateOfBatch(env, spec, s, n);
    UpdateDecides(env.engine, spec, was, data, env.clock(n).finish);
    SeenAfterBatch(env, spec, s, n, was, data);
    OutputFromUpdate(env.engine, spec, was, t.final.status, data);
  }

  lemma OutputFromUpdate(engine: Engine, spec: FlowSpec, was: FlowStatus, f: FlowStatus, data: TemplateData)
    requires Outputs(engine, spec, was, f, data) && was.output == "" && !was.phase.Terminal()
    requires SeesSucceeded(engine, spec, data, f.steps) && (LoopFree(spec) ==> Sees(engine, spec, data, f.steps))
    ensures OutputIsExact(engine, spec, f)
  {
    hide SeesSucceeded, Sees;
  }

  lemma SeenAfterBatch(env: LocalEnv, spec: FlowSpec, s: LocalState, n: nat, was: FlowStatus, data: TemplateData)
    requires EveryResultArrives(env) && UniqueNames(spec) && Settled(spec, s.status.steps)
    requires JsonKept(env.engine, spec, s.status.steps)
    requires Batch(env, spec, s, n).final.status.steps == was.steps
    requires var t := Batch(env, spec, s, n);
             if t.round.ready == [] then was.steps == t.round.steps && data == t.data
             else Pointers(t.ix, was.steps) && data == DataOf(env.engine, spec, was.steps, t.ix)
    ensures SeesSucceeded(env.engine, spec, data, was.steps)
    ensures LoopFree(spec) ==> Sees(env.engine, spec, data, was.steps)
  {
    hide Batch, Sees, SeesSucceeded, DataOf, JsonKept, StagesOf;
    var t := Batch(env, spec, s, n);
    BatchKeepsSettled(env, spec, s, n);
    BatchStages(env, spec, s, n);
    if t.round.ready == [] {
      BatchSees(env, spec, s, n);
      forall i | 0 <= i < |spec.steps|
        ensures t.round.steps[i].phase.Succeeded? ==> t.round.steps[i] == s.status.steps[i]
        ensures LoopFree(spec) ==> t.round.steps[i].output == s.status.steps[i].output
                                   && t.round.steps[i].outputJson == s.status.steps[i].outputJson
      {
        BatchStagesMean(env, spec, s, n, i);
        SeenRecord(env, spec, s, n, i);
      }
      SeenAtEnd(env.engine, spec, data, s.status.steps, was.steps);
    } else {
      DataIsSeen(env.engine, spec, was.steps, t.ix);
      SeesAll(env.engine, spec, data, was.steps);
    }
  }

  lemma SeesAll(engine: Engine, spec: FlowSpec, data: TemplateData, steps: seq<StepStatus>)
    requires Sees(engine, spec, data, steps)
    ensures SeesSucceeded(engine, spec, data, steps)
  {
  }

  lemma SeenRecord(env: LocalEnv, spec: FlowSpec, s: LocalState, n: nat, i: nat)
    requires EveryResultArrives(env)
    requires var t := Batch(env, spec, s, n);
             && i < |spec.steps| == |s.status.steps| == |t.looped| == |t.round.steps| == |t.bench.steps|
             && |t.final.status.steps| == |spec.steps| && StagesOf(env, spec, s, n, t, i)
    ensures var t := Batch(env, spec, s, n);
            && (t.round.steps[i].phase.Succeeded? ==> t.round.steps[i] == s.status.steps[i])
            && (LoopFree(spec) ==> t.round.steps[i].output == s.status.steps[i].output
                                   && t.round.steps[i].outputJson == s.status.steps[i].outputJson)
  {
    hide Batch, KeepsJson, Released, ConditionFalse, RanOutcome;
  }

  /** The templates of a batch see the records as the batch finds them. */
  lemma BatchSees(env: LocalEnv, spec: FlowSpec, s: LocalState, n: nat)
    requires EveryResultArrives(env) && UniqueNames(spec) && Mirrors(spec, s.status.steps)
    ensures Sees(env.engine, spec, Batch(env, spec, s, n).data, s.status.steps)
  {
    hide IsTruthy, ReadyUpTo, Ran, LoopsEvaluated, DataOf, StatusByName, PhaseUpdated, Closed, Sees;
    UniqueNamesAreFaithful(spec, s.status.steps);
    DataIsSeen(env.engine, spec, s.status.steps, Batch(env, spec, s, n).ix);
  }

  // --- Runs -----------------------------------------------------------------------------------

  /** What every state of a run satisfies. */
  ghost predicate StateOk(env: LocalEnv, spec: FlowSpec, s: LocalState) {
    && Settled(spec, s.status.steps) && JsonKept(env.engine, spec, s.status.steps)
    && s.status.startTime == Some(env.started)
    && EndIsExact(spec, s.status) && OutputIsExact(env.engine, spec, s.status)
    && (!s.halted ==> !s.status.phase.Terminal())
  }

  lemma BatchKeepsOk(env: LocalEnv, spec: FlowSpec, s: LocalState, n: nat)
    requires EveryResultArrives(env) && UniqueNames(spec) && StateOk(env, spec, s) && !s.halted
    ensures StateOk(env, spec, Batch(env, spec, s, n).final)
  {
    hide Batch, StagesOf, Decided, Recorded, EndIsExact, KeepsJson;
    var t := Batch(env, spec, s, n);
    BatchKeepsSettled(env, spec, s, n);
    BatchDecides(env, spec, s, n);
    DecidedEndIsExact(spec, s.status, t.final.status, env.clock(n).finish);
    BatchOutputs(env, spec, s, n);
    forall i | 0 <= i < |spec.steps| ensures KeepsJson(env.engine, spec.steps[i], t.final.status.steps[i]) {
      BatchStagesMean(env, spec, s, n, i);
      StagesKeepJson(env, spec, s, n, i);
    }
    HaltsOnEnd(env, spec, s, n);
  }

  lemma StagesKeepJson(env: LocalEnv, spec: FlowSpec, s: LocalState, n: nat, i: nat)
    requires EveryResultArrives(env)
    requires var t := Batch(env, spec, s, n);
             && i < |spec.steps| == |s.status.steps| == |t.looped| == |t.round.steps| == |t.bench.steps|
             && |t.final.status.steps| == |spec.steps| && StagesOf(env, spec, s, n, t, i)
    ensures KeepsJson(env.engine, spec.steps[i], Batch(env, spec, s, n).final.status.steps[i])
  {
    hide Batch, LoopOutcome, RoundOutcome, RanOutcome;
  }

  lemma HaltsOnEnd(env: LocalEnv, spec: FlowSpec, s: LocalState, n: nat)
    requires EveryResultArrives(env)
    ensures var f := Batch(env, spec, s, n).final; f.status.phase.Terminal() ==> f.halted
  {
    hide IsTruthy, ReadyUpTo, Ran, LoopsEvaluated, DataOf, StatusByName, PhaseUpdated, Closed;
  }

  lemma {:induction false} EveryStateOk(env: LocalEnv, spec: FlowSpec, n: nat)
    requires EveryResultArrives(env) && UniqueNames(spec)
    ensures StateOk(env, spec, LocalRun(env, spec, FRESH_STATUS, n))
  {
    hide Batch, StateOk;
    if n == 0 {
      StartIsOk(env, spec);
    } else {
      EveryStateOk(env, spec, n - 1);
      var s := LocalRun(env, spec, FRESH_STATUS, n - 1);
      if !s.halted {
        BatchKeepsOk(env, spec, s, n - 1);
      }
    }
  }

  lemma StartIsOk(env: LocalEnv, spec: FlowSpec)
    requires EveryResultArrives(env)
    ensures StateOk(env, spec, LocalRun(env, spec, FRESH_STATUS, 0))
  {
  }

  /** The exact cause of every end, and the exact output, in every state of a run that starts the flow. */
  lemma EveryLocalEndIsExact(env: LocalEnv, spec: FlowSpec, n: nat)
    requires EveryResultArrives(env) && UniqueNames(spec)
    ensures var st := LocalRun(env, spec, FRESH_STATUS, n).status;
            && st.startTime == Some(env.started) && EndIsExact(spec, st) && OutputIsExact(env.engine, spec, st)
            && JsonKept(env.engine, spec, st.steps)
  {
    hide LocalRun, EndIsExact, OutputIsExact, JsonKept;
    EveryStateOk(env, spec, n);
  }

  /** The meaning of a batch. */
  ghost predicate BatchMeaning(env: LocalEnv, spec: FlowSpec, s: LocalState, n: nat)
    requires EveryResultArrives(env)
  {
    var t := Batch(env, spec, s, n);
    && |spec.steps| == |s.status.steps| == |t.looped| == |t.round.steps| == |t.bench.steps|
    && |t.final.status.steps| == |spec.steps|
    && Sees(env.engine, spec, t.data, s.status.steps)
    && (forall i :: 0 <= i < |spec.steps| ==> StagesOf(env, spec, s, n, t, i))
    && s.status.startTime.Some? && t.final.status.startTime == s.status.startTime
    && Decided(spec, s.status.startTime.value, s.status, t.final.status, env.clock(n).finish)
    && Recorded(spec, s.status.startTime.value, s.status, t.final.status, env.clock(n).finish)
  }

  lemma EveryBatchMeans(env: LocalEnv, spec: FlowSpec, n: nat)
    requires EveryResultArrives(env) && UniqueNames(spec) && !LocalRun(env, spec, FRESH_STATUS, n).halted
    ensures BatchMeaning(env, spec, LocalRun(env, spec, FRESH_STATUS, n), n)
  {
    hide LocalRun, Batch, StagesOf, Decided, Recorded, Sees, JsonKept, EndIsExact, OutputIsExact;
    var s := LocalRun(env, spec, FRESH_STATUS, n);
    EveryStateOk(env, spec, n);
    BatchKeepsSettled(env, spec, s, n);
    BatchSees(env, spec, s, n);
    BatchDecides(env, spec, s, n);
    forall i | 0 <= i < |spec.steps|
      ensures StagesOf(env, spec, s, n, Batch(env, spec, s, n), i)
    {
      BatchStagesMean(env, spec, s, n, i);
    }
  }
}

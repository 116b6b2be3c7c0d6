/** What the executor's log says about the agents' replies, and what the records and the totals of every run
    keep of it. */
module LocalLedger {
  import opened FlowTypes
  import opened Templates
  import opened FlowLogic
  import opened StepMeaning
  import opened LocalExecutor
  import opened LocalRuns
  import opened LocalMeaning
  import opened LocalExecutions

  /** The last event of a step that reports the given phase. */
  ghost function LastOf(log: seq<StepEvent>, name: string, phase: StepPhase): (e: Option<StepEvent>) {
    if log == [] then None
    else
      var last := log[|log| - 1];
      if last.step == name && last.phase == phase then Some(last) else LastOf(log[..|log| - 1], name, phase)
  }

  lemma LastOfAppend(log: seq<StepEvent>, e: StepEvent, name: string, phase: StepPhase)
    ensures LastOf(log + [e], name, phase) ==
            if e.step == name && e.phase == phase then Some(e) else LastOf(log, name, phase)
  {
    assert (log + [e])[..|log|] == log;
  }

  /** The event reports a reply to a prompt of the step, under the data of some moment. */
  ghost predicate ReportsReply(env: LocalEnv, spec: FlowSpec, e: StepEvent) {
    exists n: nat, pos: nat, prompt, data |
      pos < |spec.steps| && LocalPrompt(env.engine, spec.steps[pos], data, prompt) ::
      ReportOf(spec, e, pos, env.agent(n, pos, prompt))
  }

  ghost predicate ReportOf(spec: FlowSpec, e: StepEvent, pos: nat, reply: Reply)
    requires pos < |spec.steps|
  {
    e == StepEvent(spec.steps[pos].name, if reply.error.Some? then Failed else Succeeded, reply.output,
                   reply.inputTokens, reply.outputTokens, reply.error)
  }

  /** The log reports starts and replies, and nothing else. */
  ghost predicate LogOk(env: LocalEnv, spec: FlowSpec, log: seq<StepEvent>) {
    forall k :: 0 <= k < |log| ==> log[k].phase.Running? || ReportsReply(env, spec, log[k])
  }

  /** The record of a step keeps the counts of its last success and, while it has succeeded, its output; a
      failed record keeps the error of its last failure. */
  ghost predicate KeepsReport(log: seq<StepEvent>, name: string, st: StepStatus) {
    var success, failure := LastOf(log, name, Succeeded), LastOf(log, name, Failed);
    && st.tokenUsage == (match success
                         case None => None
                         case Some(e) =>
                           Some(TokenUsage(e.inputTokens, e.outputTokens, e.inputTokens + e.outputTokens)))
    && (st.phase.Succeeded? ==> success.Some? && success.value.error.None? && st.output == success.value.output)
    && (st.phase.Failed? ==>
          failure.Some? && failure.value.error.Some? && st.message == AgentError(failure.value.error.value))
  }

  // --- A batch --------------------------------------------------------------------------------

  lemma {:induction false} LogOfStarted(env: LocalEnv, spec: FlowSpec, b: Bench, ix: map<string, nat>, ready: seq<nat>,
                                        clock: nat -> Time, k: nat, name: string, phase: StepPhase)
    requires Pointers(ix, b.steps) && Runnable(spec, ix, ready) && k <= |ready| && !phase.Running?
    requires LogOk(env, spec, b.log)
    ensures LastOf(StartedUpTo(spec, b, ix, ready, clock, k).log, name, phase) == LastOf(b.log, name, phase)
    ensures LogOk(env, spec, StartedUpTo(spec, b, ix, ready, clock, k).log)
  {
    hide LastOf, StartStep, StartedUpTo, ReportsReply;
    StartedUnfolds(spec, b, ix, ready, clock, k);
    if k > 0 {
      LogOfStarted(env, spec, b, ix, ready, clock, k - 1, name, phase);
      var q := StartedUpTo(spec, b, ix, ready, clock, k - 1);
      LastOfAppend(q.log, StepEvent(spec.steps[ready[k - 1]].name, Running, "", 0, 0, None), name, phase);
    }
  }

  lemma ReplyIsReported(env: LocalEnv, spec: FlowSpec, data: TemplateData, n: nat, pos: nat)
    requires pos < |spec.steps|
    ensures ReportsReply(env, spec, FinishEvent(spec.steps[pos].name, ReplyTo(env, spec, data, n, pos)))
  {
    hide PromptOrEmpty, LocalPrompt;
    PromptMeans(env.engine, spec.steps[pos], data);
    var prompt := PromptOrEmpty(env.engine, spec.steps[pos], data);
    assert ReportOf(spec, FinishEvent(spec.steps[pos].name, ReplyTo(env, spec, data, n, pos)), pos,
                    env.agent(n, pos, prompt));
  }

  lemma {:induction false} LogOfFinished(env: LocalEnv, spec: FlowSpec, b: Bench, ix: map<string, nat>,
                                         data: TemplateData, n: nat, ready: seq<nat>, order: seq<nat>, k: nat, i: nat,
                                         phase: StepPhase)
    requires Faithful(spec, ix) && Pointers(ix, b.steps) && Runnable(spec, ix, ready) && k <= |order|
    requires forall j :: 0 <= j < |order| ==> order[j] < |ready|
    requires i < |spec.steps| && LogOk(env, spec, b.log)
    ensures var e := FinishEvent(spec.steps[i].name, ReplyTo(env, spec, data, n, i));
            LastOf(FinishedUpTo(env, spec, b, ix, data, n, ready, order, k).log, spec.steps[i].name, phase) ==
            if (exists j :: 0 <= j < k && ready[order[j]] == i) && e.phase == phase then Some(e)
            else LastOf(b.log, spec.steps[i].name, phase)
    ensures LogOk(env, spec, FinishedUpTo(env, spec, b, ix, data, n, ready, order, k).log)
  {
    hide LastOf, ReplyTo, FinishedUpTo, ReportsReply, FinishStep, Faithful, FinishEvent;
    FinishedUnfolds(env, spec, b, ix, data, n, ready, order, k);
    if k > 0 {
      LogOfFinished(env, spec, b, ix, data, n, ready, order, k - 1, i, phase);
      var q := FinishedUpTo(env, spec, b, ix, data, n, ready, order, k - 1);
      var pos := ready[order[k - 1]];
      var e := FinishEvent(spec.steps[pos].name, ReplyTo(env, spec, data, n, pos));
      LastOfAppend(q.log, e, spec.steps[i].name, phase);
      EventName(spec.steps[pos].name, ReplyTo(env, spec, data, n, pos));
      ReplyIsReported(env, spec, data, n, pos);
      NameOfPosition(spec, ix, i);
      NameOfPosition(spec, ix, pos);
    }
  }

  lemma EventName(name: string, reply: Reply)
    ensures FinishEvent(name, reply).step == name
  {
  }

  /** What running does to step i and to the log. */
  lemma LogOfRan(env: LocalEnv, spec: FlowSpec, b: Bench, ix: map<string, nat>, data: TemplateData, n: nat,
                 ready: seq<nat>, i: nat)
    requires Faithful(spec, ix) && Pointers(ix, b.steps) && Mirrors(spec, b.steps)
    requires Runnable(spec, ix, ready) && Ascending(ready) && Permutation(env.arrivals(n, |ready|), |ready|)
    requires i < |spec.steps| && LogOk(env, spec, b.log) && KeepsReport(b.log, spec.steps[i].name, b.steps[i])
    requires i in ready ==> b.steps[i].phase.Pending?
    ensures var r := Ran(env, spec, b, ix, data, n, ready);
            LogOk(env, spec, r.log) && KeepsReport(r.log, spec.steps[i].name, r.steps[i])
  {
    hide LastOf, ReplyTo, StartedUpTo, FinishedUpTo, LogOk;
    var order := env.arrivals(n, |ready|);
    var started := StartedUpTo(spec, b, ix, ready, env.clock(n).start, |ready|);
    LogOfStarted(env, spec, b, ix, ready, env.clock(n).start, |ready|, spec.steps[i].name, Succeeded);
    LogOfStarted(env, spec, b, ix, ready, env.clock(n).start, |ready|, spec.steps[i].name, Failed);
    LogOfFinished(env, spec, started, ix, data, n, ready, order, |ready|, i, Succeeded);
    LogOfFinished(env, spec, started, ix, data, n, ready, order, |ready|, i, Failed);
    RanPointwise(env, spec, b, ix, data, n, ready, i);
    ArrivedIsReady(ready, order, i);
  }

  /** Every ready step's result arrives. */
  lemma ArrivedIsReady(ready: seq<nat>, order: seq<nat>, i: nat)
    requires Permutation(order, |ready|)
    ensures (exists j :: 0 <= j < |ready| && ready[order[j]] == i) <==> i in ready
  {
    if i in ready {
      var m :| 0 <= m < |ready| && ready[m] == i;
      assert m in order;
      var j :| 0 <= j < |order| && order[j] == m;
    }
  }

  ghost predicate LedgerOk(env: LocalEnv, spec: FlowSpec, s: LocalState) {
    && LogOk(env, spec, s.log) && |s.status.steps| == |spec.steps|
    && forall i :: 0 <= i < |spec.steps| ==> KeepsReport(s.log, spec.steps[i].name, s.status.steps[i])
  }

  lemma BatchKeepsLedger(env: LocalEnv, spec: FlowSpec, s: LocalState, n: nat)
    requires EveryResultArrives(env) && UniqueNames(spec) && StateOk(env, spec, s) && LedgerOk(env, spec, s)
    ensures LedgerOk(env, spec, Batch(env, spec, s, n).final)
  {
    hide Batch, LogOk, KeepsReport, StagesOf, JsonKept, EndIsExact, OutputIsExact;
    var t := Batch(env, spec, s, n);
    BatchKeepsSettled(env, spec, s, n);
    forall i | 0 <= i < |spec.steps|
      ensures KeepsReport(t.final.log, spec.steps[i].name, t.final.status.steps[i])
    {
      StepKeepsReport(env, spec, s, n, i);
    }
    if spec.steps == [] {
      NoStepsNoEvents(env, spec, s, n);
    } else {
      StepKeepsReport(env, spec, s, n, 0);
    }
  }

  lemma StepKeepsReport(env: LocalEnv, spec: FlowSpec, s: LocalState, n: nat, i: nat)
    requires EveryResultArrives(env) && UniqueNames(spec) && StateOk(env, spec, s) && LogOk(env, spec, s.log)
    requires i < |spec.steps| == |s.status.steps| && KeepsReport(s.log, spec.steps[i].name, s.status.steps[i])
    ensures var t := Batch(env, spec, s, n);
            && |t.final.status.steps| == |spec.steps| && LogOk(env, spec, t.final.log)
            && KeepsReport(t.final.log, spec.steps[i].name, t.final.status.steps[i])
  {
    hide Batch, LogOk, LastOf, JsonKept, EndIsExact, OutputIsExact, StagesOf;
    var t := Batch(env, spec, s, n);
    BatchKeepsSettled(env, spec, s, n);
    BatchStages(env, spec, s, n);
    BatchStagesMean(env, spec, s, n, i);
    BeforeRun(env, spec, s, n, i);
    LogOfBatch(env, spec, s, n, i);
    AfterRun(env, spec, s, n, i);
  }

  /** Loops and the round leave what a record keeps of the log. */
  lemma BeforeRun(env: LocalEnv, spec: FlowSpec, s: LocalState, n: nat, i: nat)
    requires EveryResultArrives(env)
    requires var t := Batch(env, spec, s, n);
             && i < |spec.steps| == |s.status.steps| == |t.looped| == |t.round.steps| == |t.bench.steps|
             && |t.final.status.steps| == |spec.steps| && StagesOf(env, spec, s, n, t, i)
    requires KeepsReport(s.log, spec.steps[i].name, s.status.steps[i])
    ensures var t := Batch(env, spec, s, n);
            && KeepsReport(s.log, spec.steps[i].name, t.round.steps[i])
            && (i in t.round.ready ==> t.round.steps[i].phase.Pending?)
  {
    hide Batch, LastOf, KeepsJson, Released, ConditionFalse, RanOutcome, Repeats;
    var t := Batch(env, spec, s, n);
    LoopKeepsReport(env.engine, spec.steps[i], s.log, s.status.steps[i], t.looped[i], t.data);
  }

  lemma LoopKeepsReport(engine: Engine, step: Step, log: seq<StepEvent>, st: StepStatus, r: StepStatus,
                        data: TemplateData)
    requires LoopOutcome(engine, step, st, r, data) && KeepsReport(log, step.name, st)
    ensures KeepsReport(log, step.name, r)
  {
    hide LastOf, Repeats;
  }

  lemma AfterRun(env: LocalEnv, spec: FlowSpec, s: LocalState, n: nat, i: nat)
    requires EveryResultArrives(env)
    requires var t := Batch(env, spec, s, n);
             && i < |spec.steps| == |s.status.steps| == |t.looped| == |t.round.steps| == |t.bench.steps|
             && |t.final.status.steps| == |spec.steps| && StagesOf(env, spec, s, n, t, i)
    requires var t := Batch(env, spec, s, n); KeepsReport(t.final.log, spec.steps[i].name, t.bench.steps[i])
    ensures var t := Batch(env, spec, s, n); KeepsReport(t.final.log, spec.steps[i].name, t.final.status.steps[i])
  {
    hide Batch, LastOf, KeepsJson, RoundOutcome, LoopOutcome, RanOutcome;
  }

  lemma LogOfBatch(env: LocalEnv, spec: FlowSpec, s: LocalState, n: nat, i: nat)
    requires EveryResultArrives(env) && UniqueNames(spec) && Mirrors(spec, s.status.steps) && i < |spec.steps|
    requires LogOk(env, spec, s.log) && |Batch(env, spec, s, n).round.steps| == |spec.steps|
    requires var t := Batch(env, spec, s, n);
             && KeepsReport(s.log, spec.steps[i].name, t.round.steps[i])
             && (i in t.round.ready ==> t.round.steps[i].phase.Pending?)
    ensures var t := Batch(env, spec, s, n);
            && |t.bench.steps| == |spec.steps| && LogOk(env, spec, t.final.log)
            && KeepsReport(t.final.log, spec.steps[i].name, t.bench.steps[i])
  {
    hide IsTruthy, ReadyUpTo, Ran, LoopsEvaluated, Closed, DataOf, StatusByName, PhaseUpdated, LogOk, KeepsReport,
      RepetitionDue, Rearm;
    var t := Batch(env, spec, s, n);
    BatchStages(env, spec, s, n);
    if t.round.ready != [] {
      assert Permutation(env.arrivals(n, |t.round.ready|), |t.round.ready|);
      LogOfRan(env, spec, Bench(t.round.steps, s.log), t.ix, t.data, n, t.round.ready, i);
    }
  }

  lemma NoStepsNoEvents(env: LocalEnv, spec: FlowSpec, s: LocalState, n: nat)
    requires EveryResultArrives(env) && spec.steps == []
    ensures Batch(env, spec, s, n).final.log == s.log
  {
    hide IsTruthy, Ran, LoopsEvaluated, Closed, DataOf, StatusByName, PhaseUpdated;
    var t := Batch(env, spec, s, n);
    assert t.round.ready == [];
  }

  /** In every state of a run the log reports starts and replies only; each record keeps the counts of its
      last success, its output and its error. */
  lemma {:induction false} RecordsKeepReports(env: LocalEnv, spec: FlowSpec, n: nat)
    requires EveryResultArrives(env) && UniqueNames(spec)
    ensures LedgerOk(env, spec, LocalRun(env, spec, FRESH_STATUS, n))
  {
    hide Batch, LedgerOk, StateOk;
    if n == 0 {
      LedgerAtStart(env, spec);
    } else {
      RecordsKeepReports(env, spec, n - 1);
      EveryStateOk(env, spec, n - 1);
      var s := LocalRun(env, spec, FRESH_STATUS, n - 1);
      if !s.halted {
        BatchKeepsLedger(env, spec, s, n - 1);
      }
    }
  }

  lemma LedgerAtStart(env: LocalEnv, spec: FlowSpec)
    requires EveryResultArrives(env)
    ensures LedgerOk(env, spec, LocalRun(env, spec, FRESH_STATUS, 0))
  {
  }

  // --- Totals ---------------------------------------------------------------------------------

  /** The input tokens of the last success of each step. */
  ghost function ReportedIn(spec: FlowSpec, log: seq<StepEvent>): (n: int) {
    Total(seq(|spec.steps|, i requires 0 <= i < |spec.steps| =>
      match LastOf(log, spec.steps[i].name, Succeeded) case None => 0 case Some(e) => e.inputTokens))
  }

  ghost function ReportedOut(spec: FlowSpec, log: seq<StepEvent>): (n: int) {
    Total(seq(|spec.steps|, i requires 0 <= i < |spec.steps| =>
      match LastOf(log, spec.steps[i].name, Succeeded) case None => 0 case Some(e) => e.outputTokens))
  }

  /** What the records account for is what the log reports. */
  lemma SpentIsReported(env: LocalEnv, spec: FlowSpec, s: LocalState)
    requires LedgerOk(env, spec, s)
    ensures SpentIn(s.status.steps) == ReportedIn(spec, s.log) && SpentOut(s.status.steps) == ReportedOut(spec, s.log)
  {
    hide LastOf, LogOk, Total;
    var steps := s.status.steps;
    forall i | 0 <= i < |spec.steps|
      ensures (match steps[i].tokenUsage case None => 0 case Some(u) => u.inputTokens) ==
              (match LastOf(s.log, spec.steps[i].name, Succeeded) case None => 0 case Some(e) => e.inputTokens)
      ensures (match steps[i].tokenUsage case None => 0 case Some(u) => u.outputTokens) ==
              (match LastOf(s.log, spec.steps[i].name, Succeeded) case None => 0 case Some(e) => e.outputTokens)
    {
      assert KeepsReport(s.log, spec.steps[i].name, steps[i]);
    }
    assert seq(|steps|, i requires 0 <= i < |steps| =>
             match steps[i].tokenUsage case None => 0 case Some(u) => u.inputTokens) ==
           seq(|spec.steps|, i requires 0 <= i < |spec.steps| =>
             match LastOf(s.log, spec.steps[i].name, Succeeded) case None => 0 case Some(e) => e.inputTokens);
    assert seq(|steps|, i requires 0 <= i < |steps| =>
             match steps[i].tokenUsage case None => 0 case Some(u) => u.outputTokens) ==
           seq(|spec.steps|, i requires 0 <= i < |spec.steps| =>
             match LastOf(s.log, spec.steps[i].name, Succeeded) case None => 0 case Some(e) => e.outputTokens);
  }

  /** Every update that is not late records the reported sums, if there are any; a run that succeeds has
      reported no more than its budget, and one that fails on its budget has reported more. */
  lemma {:induction false} TotalsAreReported(env: LocalEnv, spec: FlowSpec, n: nat)
    requires EveryResultArrives(env) && UniqueNames(spec)
    ensures var s := LocalRun(env, spec, FRESH_STATUS, n);
            var i, o := ReportedIn(spec, s.log), ReportedOut(spec, s.log);
            && (n > 0 && s.status.ready != Some(TimedOut) && (i > 0 || o > 0) ==>
                  s.status.totals == Some(TokenUsage(i, o, i + o)))
            && (s.status.phase.FlowSucceeded? && spec.maxTokens > 0 ==> i + o <= spec.maxTokens)
            && (s.status.ready == Some(BudgetExceeded) ==> spec.maxTokens > 0 && i + o > spec.maxTokens)
  {
    hide Batch, LedgerOk, ReportedIn, ReportedOut, JsonKept, OutputIsExact, SpentIn, SpentOut, BatchMeaning;
    var s := LocalRun(env, spec, FRESH_STATUS, n);
    EveryStateOk(env, spec, n);
    RecordsKeepReports(env, spec, n);
    SpentIsReported(env, spec, s);
    if n > 0 {
      TotalsAreReported(env, spec, n - 1);
      var before := LocalRun(env, spec, FRESH_STATUS, n - 1);
      if before.halted {
        StillHalted(env, spec, n);
      } else {
        EveryStateOk(env, spec, n - 1);
        BatchDecides(env, spec, before, n - 1);
      }
    }
  }

  lemma StillHalted(env: LocalEnv, spec: FlowSpec, n: nat)
    requires EveryResultArrives(env) && n > 0 && LocalRun(env, spec, FRESH_STATUS, n - 1).halted
    ensures n > 1 && LocalRun(env, spec, FRESH_STATUS, n) == LocalRun(env, spec, FRESH_STATUS, n - 1)
  {
    hide Batch;
  }
}

/** How often the executor runs a step, and a validated flow it does not finish. */
module LocalExecutions {
  import opened FlowTypes
  import opened Templates
  import opened FlowLogic
  import opened StepMeaning
  import opened LocalExecutor
  import opened LocalRuns
  import Dag

  /** How often a step was reported as started. */
  function Starts(log: seq<StepEvent>, name: string): (n: nat) {
    if log == [] then 0
    else
      var last := log[|log| - 1];
      Starts(log[..|log| - 1], name) + (if last.step == name && last.phase.Running? then 1 else 0)
  }

  lemma StartsOfAppend(log: seq<StepEvent>, e: StepEvent, name: string)
    ensures Starts(log + [e], name) == Starts(log, name) + (if e.step == name && e.phase.Running? then 1 else 0)
  {
    assert (log + [e])[..|log|] == log;
  }

  lemma NameOfPosition(spec: FlowSpec, ix: map<string, nat>, i: nat)
    requires Faithful(spec, ix) && i < |spec.steps|
    ensures spec.steps[i].name in ix && ix[spec.steps[i].name] == i
  {
  }

  lemma {:induction false} StartsOfStarted(spec: FlowSpec, b: Bench, ix: map<string, nat>, ready: seq<nat>,
                                           clock: nat -> Time, k: nat, i: nat)
    requires Faithful(spec, ix) && Pointers(ix, b.steps) && Runnable(spec, ix, ready) && Ascending(ready)
    requires k <= |ready| && i < |spec.steps|
    ensures Starts(StartedUpTo(spec, b, ix, ready, clock, k).log, spec.steps[i].name) ==
            Starts(b.log, spec.steps[i].name) + (if Among(ready, k, i) then 1 else 0)
  {
    hide Starts, Faithful, StartStep, StartedUpTo;
    StartedUnfolds(spec, b, ix, ready, clock, k);
    if k > 0 {
      StartsOfStarted(spec, b, ix, ready, clock, k - 1, i);
      var q := StartedUpTo(spec, b, ix, ready, clock, k - 1);
      var name := spec.steps[ready[k - 1]].name;
      StartsOfAppend(q.log, StepEvent(name, Running, "", 0, 0, None), spec.steps[i].name);
      NameOfPosition(spec, ix, i);
      NameOfPosition(spec, ix, ready[k - 1]);
      assert ix[name] == ready[k - 1] && ix[spec.steps[i].name] == i;
      assert Among(ready, k, i) <==> Among(ready, k - 1, i) || ready[k - 1] == i;
    }
  }

  lemma {:induction false} StartsOfFinished(env: LocalEnv, spec: FlowSpec, b: Bench, ix: map<string, nat>,
                                            data: TemplateData, n: nat,
                                            ready: seq<nat>, order: seq<nat>, k: nat, name: string)
    requires Pointers(ix, b.steps) && Runnable(spec, ix, ready) && k <= |order|
    requires forall j :: 0 <= j < |order| ==> order[j] < |ready|
    ensures Starts(FinishedUpTo(env, spec, b, ix, data, n, ready, order, k).log, name) == Starts(b.log, name)
  {
    hide ReplyTo, Starts, FinishedUpTo;
    FinishedUnfolds(env, spec, b, ix, data, n, ready, order, k);
    if k > 0 {
      StartsOfFinished(env, spec, b, ix, data, n, ready, order, k - 1, name);
      var q := FinishedUpTo(env, spec, b, ix, data, n, ready, order, k - 1);
      var pos := ready[order[k - 1]];
      StartsOfAppend(q.log, FinishEvent(spec.steps[pos].name, ReplyTo(env, spec, data, n, pos)), name);
    }
  }

  /** Executions of a record: one for each iteration begun. */
  function Executed(st: StepStatus): (n: int) {
    st.iterations + (if st.phase.Succeeded? || st.phase.Failed? then 1 else 0)
  }

  ghost predicate LogMatches(spec: FlowSpec, s: LocalState) {
    && Settled(spec, s.status.steps)
    && forall i :: 0 <= i < |spec.steps| ==> Starts(s.log, spec.steps[i].name) == Executed(s.status.steps[i])
  }

  lemma BatchKeepsLog(env: LocalEnv, spec: FlowSpec, s: LocalState, n: nat)
    requires EveryResultArrives(env) && UniqueNames(spec) && LogMatches(spec, s)
    ensures LogMatches(spec, Batch(env, spec, s, n).final)
  {
    hide IsTruthy, Batch, ReadyUpTo, ParsedJson, HasSchema, ReplyTo, Starts;
    var t := Batch(env, spec, s, n);
    BatchKeepsSettled(env, spec, s, n);
    BatchStages(env, spec, s, n);
    forall i | 0 <= i < |spec.steps|
      ensures Starts(t.final.log, spec.steps[i].name) == Executed(t.final.status.steps[i])
    {
      BatchResults(env, spec, s, n, i);
      ReadyFate(env.engine, spec, t.looped, t.ix, t.data, env.clock(n).skip, i);
      BatchLog(env, spec, s, n, i);
    }
  }

  lemma BatchLog(env: LocalEnv, spec: FlowSpec, s: LocalState, n: nat, i: nat)
    requires EveryResultArrives(env) && UniqueNames(spec) && Mirrors(spec, s.status.steps) && i < |spec.steps|
    ensures var t := Batch(env, spec, s, n);
            Starts(t.final.log, spec.steps[i].name) ==
            Starts(s.log, spec.steps[i].name) + (if i in t.round.ready then 1 else 0)
  {
    hide IsTruthy, ReadyUpTo, StartedUpTo, FinishedUpTo, LoopsEvaluated, DataOf, StatusByName, PhaseUpdated, Closed,
      Starts;
    var t := Batch(env, spec, s, n);
    BatchStages(env, spec, s, n);
    var ready := t.round.ready;
    if ready != [] {
      assert Permutation(env.arrivals(n, |ready|), |ready|);
      var b := Bench(t.round.steps, s.log);
      StartsOfStarted(spec, b, t.ix, ready, env.clock(n).start, |ready|, i);
      StartsOfFinished(env, spec, StartedUpTo(spec, b, t.ix, ready, env.clock(n).start, |ready|), t.ix, t.data, n,
                       ready, env.arrivals(n, |ready|), |ready|, spec.steps[i].name);
      assert i in ready <==> Among(ready, |ready|, i);
    }
  }

  lemma {:induction false} LogFollowsRun(env: LocalEnv, spec: FlowSpec, n: nat)
    requires EveryResultArrives(env) && UniqueNames(spec)
    ensures LogMatches(spec, LocalRun(env, spec, FRESH_STATUS, n))
  {
    hide IsTruthy, Batch;
    if n > 0 {
      LogFollowsRun(env, spec, n - 1);
      BatchKeepsLog(env, spec, LocalRun(env, spec, FRESH_STATUS, n - 1), n - 1);
    }
  }

  /** Each step is executed once for each iteration it has begun, and at most once more than its loop
      allows repetitions. */
  lemma ExecutionsAreBounded(env: LocalEnv, spec: FlowSpec, n: nat, i: nat)
    requires EveryResultArrives(env) && UniqueNames(spec) && i < |spec.steps|
    ensures var s := LocalRun(env, spec, FRESH_STATUS, n);
            && |s.status.steps| == |spec.steps|
            && Starts(s.log, spec.steps[i].name) == Executed(s.status.steps[i])
            && Starts(s.log, spec.steps[i].name) <= Repetitions(spec.steps[i]) + 1
  {
    hide LocalRun, Starts;
    RepetitionsIsCap(spec.steps[i]);
    LogFollowsRun(env, spec, n);
  }

  // --- A flow the executor does not finish ----------------------------------------------------

  const REPORT := Step("report", "writer", map[], ["check"], "", "", None)
  const CHECK := Step("check", "reader", map[], [], "", "{{ .pipeline.input.full }}", None)

  /** A step listed before the conditional step it depends on. */
  const LATE_SKIP := FlowSpec([REPORT, CHECK], map[], "", 0, 0)

  /** What Go's templates make of a condition on an input that the flow does not have. */
  ghost predicate FalsyWithoutInput(engine: Engine, condition: string) {
    forall d: TemplateData | d.input == map[] :: !Holds(engine, condition, d)
  }

  lemma LateSkipIsValid()
    ensures UniqueNames(LATE_SKIP) && Dag.ValidDag(LATE_SKIP) && LoopFree(LATE_SKIP)
  {
    var spec := LATE_SKIP;
    assert spec.steps[1].name == "check" && spec.steps[0].name == "report";
    assert Dag.KnownName(spec, "check");
    var adj := Dag.Adjacency(spec.steps);
    Dag.AdjacencyOfStep(spec.steps, 0);
    Dag.AdjacencyOfStep(spec.steps, 1);
    var rank: map<string, nat> := map["check" := 0, "report" := 1];
    forall n, d | Dag.Edge(adj, n, d) ensures d in rank && n in rank && rank[d] < rank[n] {
      Dag.AdjacencyComes(spec.steps, n);
    }
    forall n | n in adj ensures n in rank {
      Dag.AdjacencyComes(spec.steps, n);
    }
    assert Dag.Ranks(adj, rank);
  }

  lemma SomeMember(list: seq<nat>)
    ensures list == [] || exists i :: i in list
  {
    if list != [] {
      assert list[0] in list;
    }
  }

  lemma BatchSeesInput(env: LocalEnv, spec: FlowSpec, s: LocalState, n: nat)
    requires EveryResultArrives(env)
    ensures Batch(env, spec, s, n).data.input == spec.input
  {
    hide IsTruthy, ReadyUpTo, Ran, Closed, LoopsEvaluated, StatusByName, PhaseUpdated;
  }

  lemma NothingReady(env: LocalEnv, st: FlowStatus)
    requires EveryResultArrives(env) && FalsyWithoutInput(env.engine, CHECK.ifCondition)
    requires st == Initialized(LATE_SKIP, FRESH_STATUS, env.started)
    ensures var t := Batch(env, LATE_SKIP, LocalState(st, [], false), 0);
            && t.round.ready == [] && |t.round.steps| == 2
            && t.round.steps[0].phase.Pending? && t.round.steps[1].phase.Skipped?
  {
    hide Holds, ReadyUpTo, Batch, Dag.ValidDag, Dag.Rankable;
    LateSkipIsValid();
    var spec := LATE_SKIP;
    var s := LocalState(st, [], false);
    var t := Batch(env, spec, s, 0);
    var clock := env.clock(0).skip;
    BatchStages(env, spec, s, 0);
    BatchSeesInput(env, spec, s, 0);
    assert spec.steps[0] == REPORT && spec.steps[1] == CHECK;
    assert t.looped[0] == st.steps[0] && t.looped[1] == st.steps[1];
    ReadyFate(env.engine, spec, t.looped, t.ix, t.data, clock, 0);
    ReadyFate(env.engine, spec, t.looped, t.ix, t.data, clock, 1);
    DepAtTurn(env.engine, spec, t.looped, t.ix, t.data, clock, 0, 1);
    var turn := ReadyUpTo(env.engine, spec, t.looped, t.ix, t.data, clock, 0);
    assert t.ix["check"] == 1;
    assert "check" in REPORT.dependsOn && !DepDone("check", turn.steps, t.ix);
    SomeMember(t.round.ready);
  }

  lemma LateSkipBatch(env: LocalEnv, st: FlowStatus)
    requires EveryResultArrives(env) && FalsyWithoutInput(env.engine, CHECK.ifCondition)
    requires st == Initialized(LATE_SKIP, FRESH_STATUS, env.started)
    ensures var s := Batch(env, LATE_SKIP, LocalState(st, [], false), 0).final;
            && s.halted && s.status.phase.FlowRunning? && |s.status.steps| == 2
            && s.status.steps[0].phase.Pending? && s.status.steps[1].phase.Skipped?
  {
    hide Holds, ReadyUpTo, Ran, Closed, TokenSum, Totals, FlowOutput, LoopsEvaluated, DataOf, StatusByName, ParseAll;
    NothingReady(env, st);
  }

  /** The flow passes validation, yet as its condition is false the executor gives up after one batch
      with a step still pending and the flow still running. */
  lemma ValidatedFlowLeftRunning(env: LocalEnv)
    requires EveryResultArrives(env) && FalsyWithoutInput(env.engine, CHECK.ifCondition)
    ensures UniqueNames(LATE_SKIP) && Dag.ValidDag(LATE_SKIP)
    ensures var s := LocalRun(env, LATE_SKIP, FRESH_STATUS, 1);
            && s.halted && s.status.phase.FlowRunning? && |s.status.steps| == 2
            && s.status.steps[0].phase.Pending? && s.status.steps[1].phase.Skipped?
  {
    hide Holds, Batch;
    LateSkipIsValid();
    var st := Initialized(LATE_SKIP, FRESH_STATUS, env.started);
    assert LocalRun(env, LATE_SKIP, FRESH_STATUS, 0) == LocalState(st, [], false);
    LateSkipBatch(env, st);
  }
}

/** The executor as it runs: the flow's status is updated in place, batch by batch. */
module Executing {
  import opened FlowTypes
  import opened Templates
  import opened FlowLogic
  import opened LocalExecutor
  import opened LocalTermination
  import opened ArkFlows

  class Executor {
    const env: LocalEnv
    // what was reported through onEvent
    var log: seq<StepEvent>

    constructor (env: LocalEnv)
      ensures this.env == env && log == []
    {
      this.env := env;
      log := [];
    }

    method CollectReadySteps(f: ArkFlow, ix: map<string, nat>, data: TemplateData, clock: nat -> Time)
      returns (ready: seq<nat>)
      requires Pointers(ix, f.status.steps)
      modifies f
      ensures var r := ReadyUpTo(env.engine, f.spec, old(f.status.steps), ix, data, clock, |f.spec.steps|);
              f.status == old(f.status).(steps := r.steps) && ready == r.ready
    {
      hide ReadyStep;
      ready := [];
      for k := 0 to |f.spec.steps|
        invariant f.status == old(f.status).(steps := f.status.steps) && Pointers(ix, f.status.steps)
        invariant Round(f.status.steps, ready) == ReadyUpTo(env.engine, f.spec, old(f.status.steps), ix, data, clock, k)
      {
        var isReady := CheckStep(f, ix, data, k, clock(k), ready);
        if isReady {
          ready := ready + [k];
        }
      }
    }

    /** Whether the k-th step is ready; a step whose condition is false is marked as skipped. */
    method CheckStep(f: ArkFlow, ix: map<string, nat>, data: TemplateData, k: nat, now: Time, ghost ready: seq<nat>)
      returns (isReady: bool)
      requires k < |f.spec.steps| && Pointers(ix, f.status.steps)
      modifies f
      ensures f.status == old(f.status).(steps := f.status.steps)
      ensures Round(f.status.steps, if isReady then ready + [k] else ready) ==
              ReadyStep(env.engine, f.spec, Round(old(f.status.steps), ready), ix, data, k, now)
    {
      hide IsTruthy, DepsSucceeded;
      var step := f.spec.steps[k];
      if step.name !in ix || !f.status.steps[ix[step.name]].phase.Pending? {
        return false;
      }
      if !DepsSucceeded(step.dependsOn, f.status.steps, ix) {
        return false;
      }
      if step.ifCondition != "" {
        var result := env.engine.resolve(step.ifCondition, data);
        if result.None? || !IsTruthy(result.value) {
          var st := f.status.steps[ix[step.name]];
          st := st.(phase := Skipped, completionTime := Some(now), message := SkippedByCondition);
          f.status := f.status.(steps := f.status.steps[ix[step.name] := st]);
          return false;
        }
      }
      return true;
    }

    /** Starts the ready steps and receives their results in the order in which they arrive. */
    method RunBatch(f: ArkFlow, ix: map<string, nat>, data: TemplateData, n: nat, ready: seq<nat>)
      requires Pointers(ix, f.status.steps) && Runnable(f.spec, ix, ready)
      requires Permutation(env.arrivals(n, |ready|), |ready|)
      modifies f, this
      ensures var b := Ran(env, f.spec, Bench(old(f.status.steps), old(log)), ix, data, n, ready);
              f.status == old(f.status).(steps := b.steps) && log == b.log
    {
      hide StartedUpTo, FinishedUpTo;
      StartAll(f, ix, n, ready);
      ReceiveAll(f, ix, data, n, ready);
    }

    method ReceiveAll(f: ArkFlow, ix: map<string, nat>, data: TemplateData, n: nat, ready: seq<nat>)
      requires Pointers(ix, f.status.steps) && Runnable(f.spec, ix, ready)
      requires Permutation(env.arrivals(n, |ready|), |ready|)
      modifies f, this
      ensures f.status == old(f.status).(steps := f.status.steps)
      ensures Bench(f.status.steps, log) ==
              FinishedUpTo(env, f.spec, Bench(old(f.status.steps), old(log)), ix, data, n, ready,
                           env.arrivals(n, |ready|), |ready|)
    {
      hide FinishOne, ReplyTo, Permutation, FinishedUpTo;
      ghost var b0 := Bench(f.status.steps, log);
      var order := env.arrivals(n, |ready|);
      OrderInRange(order, |ready|);
      FinishedUnfolds(env, f.spec, b0, ix, data, n, ready, order, 0);
      for k := 0 to |order|
        invariant f.status == old(f.status).(steps := f.status.steps) && Pointers(ix, f.status.steps)
        invariant Bench(f.status.steps, log) == FinishedUpTo(env, f.spec, b0, ix, data, n, ready, order, k)
      {
        FinishedUnfolds(env, f.spec, b0, ix, data, n, ready, order, k + 1);
        ReceiveResult(f, ix, data, n, ready[order[k]], env.clock(n).done(k));
      }
    }

    static lemma OrderInRange(order: seq<nat>, n: nat)
      requires Permutation(order, n)
      ensures |order| == n && forall k :: 0 <= k < n ==> order[k] < n
    {
    }

    method StartAll(f: ArkFlow, ix: map<string, nat>, n: nat, ready: seq<nat>)
      requires Pointers(ix, f.status.steps) && Runnable(f.spec, ix, ready)
      modifies f, this
      ensures f.status == old(f.status).(steps := f.status.steps) && Pointers(ix, f.status.steps)
      ensures Bench(f.status.steps, log) ==
              StartedUpTo(f.spec, Bench(old(f.status.steps), old(log)), ix, ready, env.clock(n).start, |ready|)
    {
      hide StartOne;
      for k := 0 to |ready|
        invariant f.status == old(f.status).(steps := f.status.steps) && Pointers(ix, f.status.steps)
        invariant Bench(f.status.steps, log) ==
                  StartedUpTo(f.spec, Bench(old(f.status.steps), old(log)), ix, ready, env.clock(n).start, k)
      {
        StartRecord(f, ix, f.spec.steps[ready[k]].name, env.clock(n).start(k));
      }
    }

    method StartRecord(f: ArkFlow, ix: map<string, nat>, name: string, now: Time)
      requires Pointers(ix, f.status.steps) && name in ix
      modifies f, this
      ensures f.status == old(f.status).(steps := f.status.steps)
      ensures Bench(f.status.steps, log) == StartOne(Bench(old(f.status.steps), old(log)), ix, name, now)
    {
      var st := f.status.steps[ix[name]];
      f.status := f.status.(steps := f.status.steps[ix[name] := st.(phase := Running, startTime := Some(now))]);
      log := log + [StepEvent(name, Running, "", 0, 0, None)];
    }

    method ReceiveResult(f: ArkFlow, ix: map<string, nat>, data: TemplateData, n: nat, pos: nat, now: Time)
      requires Pointers(ix, f.status.steps) && pos < |f.spec.steps| && f.spec.steps[pos].name in ix
      modifies f, this
      ensures f.status == old(f.status).(steps := f.status.steps)
      ensures Bench(f.status.steps, log) == FinishOne(Bench(old(f.status.steps), old(log)), ix, f.spec.steps[pos].name,
                                                      ReplyTo(env, f.spec, data, n, pos), now)
    {
      hide ResolvePrompt;
      var step := f.spec.steps[pos];
      var resolved := ResolvePrompt(env.engine, step, data);
      var prompt := if resolved.Some? then resolved.value else "";
      var res := env.agent(n, pos, prompt);
      var st := f.status.steps[ix[step.name]];
      st := st.(completionTime := Some(now));
      var phase: StepPhase;
      if res.error.Some? {
        st := st.(phase := Failed, message := AgentError(res.error.value));
        phase := Failed;
      } else {
        st := st.(phase := Succeeded, output := res.output);
        st := st.(tokenUsage := Some(TokenUsage(res.inputTokens, res.outputTokens,
                                                res.inputTokens + res.outputTokens)));
        phase := Succeeded;
      }
      f.status := f.status.(steps := f.status.steps[ix[step.name] := st]);
      log := log + [StepEvent(step.name, phase, res.output, res.inputTokens, res.outputTokens, res.error)];
    }

    /** One turn of the loop in `Run`; returns whether the run goes on. */
    method Turn(f: ArkFlow, ghost s: LocalState, n: nat) returns (goOn: bool)
      requires EveryResultArrives(env) && f.status == s.status && log == s.log
      modifies f, this
      ensures LocalState(f.status, log, !goOn) == Batch(env, f.spec, s, n).final
    {
      hide LoopsEvaluated, ReadyUpTo, Ran, PhaseUpdated, DataOf, StatusByName;
      var ix := f.BuildStatusByName();
      var data := f.BuildTemplateData(env.engine, ix);
      f.EvaluateLoops(env.engine, ix, data);
      var ready := CollectReadySteps(f, ix, data, env.clock(n).skip);
      if ready == [] {
        f.UpdateFlowPhase(env.engine, data, env.clock(n).finish);
        return false;
      }
      assert Permutation(env.arrivals(n, |ready|), |ready|);
      RunBatch(f, ix, data, n, ready);
      f.ParseOutputJson(env.engine, ix);
      assert Pointers(ix, f.status.steps);
      data := f.BuildTemplateData(env.engine, ix);
      f.UpdateFlowPhase(env.engine, data, env.clock(n).finish);
      return !f.status.phase.Terminal();
    }

    /** Runs any flow, validated or not, to a halt: every turn that goes on lowers the measure. */
    method Run(f: ArkFlow) returns (batches: nat)
      requires EveryResultArrives(env) && log == []
      modifies f, this
      ensures var s := LocalRun(env, f.spec, old(f.status), batches);
              s.halted && f.status == s.status && log == s.log
    {
      f.InitializeSteps(env.started);
      var n := 0;
      var goOn := !f.status.phase.Terminal();
      while goOn
        invariant LocalState(f.status, log, !goOn) == LocalRun(env, f.spec, old(f.status), n)
        decreases LocalMeasure(f.spec, f.status.steps), goOn
      {
        ghost var s := LocalRun(env, f.spec, old(f.status), n);
        goOn := Turn(f, s, n);
        BatchLowersMeasure(env, f.spec, s, n);
        n := n + 1;
      }
      return n;
    }
  }
}

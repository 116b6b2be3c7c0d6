/** An ArkFlow object: its spec is fixed for a run, its status is updated in place. */
module ArkFlows {
  import opened FlowTypes
  import opened Templates
  import opened FlowLogic
  import JsonExtract

  class ArkFlow {
    const spec: FlowSpec
    var status: FlowStatus

    constructor (spec: FlowSpec, status: FlowStatus)
      ensures this.spec == spec && this.status == status
    {
      this.spec := spec;
      this.status := status;
    }

    method InitializeSteps(now: Time)
      modifies this
      ensures status == Initialized(spec, old(status), now)
    {
      if !status.phase.Unset? {
        return;
      }
      status := status.(phase := FlowRunning, startTime := Some(now), steps := []);
      for i := 0 to |spec.steps|
        invariant status == old(status).(phase := FlowRunning, startTime := Some(now), steps := InitialSteps(spec)[..i])
      {
        status := status.(steps := status.steps + [NewStatus(spec.steps[i])]);
      }
      status := status.(ready := Some(Validated));
    }

    method BuildStatusByName() returns (ix: map<string, nat>)
      ensures ix == StatusByName(status.steps)
    {
      ix := map[];
      ghost var names := StatusNames(status.steps);
      for i := 0 to |status.steps|
        invariant ix == LastIndex(names[..i])
      {
        assert names[..i + 1][..i] == names[..i];
        ix := ix[status.steps[i].name := i];
      }
      assert names[..|status.steps|] == names;
    }

    method SchemaNames() returns (schemas: set<string>)
      ensures forall n :: n in schemas <==> HasSchema(spec, n)
    {
      schemas := {};
      for i := 0 to |spec.steps|
        invariant forall n :: n in schemas <==>
                    exists j :: 0 <= j < i && spec.steps[j].name == n && spec.steps[j].outputSchema != ""
      {
        if spec.steps[i].outputSchema != "" {
          schemas := schemas + {spec.steps[i].name};
        }
      }
    }

    method ParseRecord(engine: Engine, schemas: set<string>, i: nat)
      requires i < |status.steps|
      requires forall n :: n in schemas <==> HasSchema(spec, n)
      modifies this
      ensures status == old(status).(
                steps := old(status.steps)[i := ParseStep(engine, spec, old(status.steps[i]))])
    {
      hide JsonExtract.ExtractJson, HasSchema;
      var st := status.steps[i];
      if st.name in schemas && st.phase.Succeeded? && st.output != "" && st.outputJson == "" {
        var raw := JsonExtract.Extract(engine.validJson, st.output);
        if raw != "" {
          var _, _ := JsonExtract.ExtractedIsValidPiece(engine.validJson, st.output);
          if engine.validJson(raw) {
            status := status.(steps := status.steps[i := st.(outputJson := raw)]);
          }
        }
      }
    }

    /** The order in which Go visits the map does not matter. */
    method ParseOutputJson(engine: Engine, ix: map<string, nat>)
      requires Pointers(ix, status.steps)
      modifies this
      ensures status == old(status).(steps := ParseAll(engine, spec, old(status.steps), ix))
    {
      hide ParseStep;
      var schemas := SchemaNames();
      ghost var before := status.steps;
      var todo := ix.Keys;
      while todo != {}
        invariant todo <= ix.Keys
        invariant |status.steps| == |before| && status == old(status).(steps := status.steps)
        invariant forall i :: 0 <= i < |before| ==>
                    (status.steps[i] ==
                     if i in ix.Values && before[i].name !in todo
                     then ParseStep(engine, spec, before[i]) else before[i])
      {
        var name :| name in todo;
        assert status.steps[ix[name]] == before[ix[name]];
        assert ix[name] in ix.Values;
        ParseRecord(engine, schemas, ix[name]);
        todo := todo - {name};
      }
      assert status.steps == ParseAll(engine, spec, before, ix);
    }

    method BuildTemplateData(engine: Engine, ix: map<string, nat>) returns (data: TemplateData)
      requires Pointers(ix, status.steps)
      ensures data == DataOf(engine, spec, status.steps, ix)
    {
      var entries: map<string, StepData> := map[];
      var todo := ix.Keys;
      while todo != {}
        invariant todo <= ix.Keys && entries.Keys == ix.Keys - todo
        invariant forall n :: n in entries ==> entries[n] == StepEntry(engine, status.steps[ix[n]])
      {
        var name :| name in todo;
        todo := todo - {name};
        var st := status.steps[ix[name]];
        var entry := StepData(st.output, None);
        if st.outputJson != "" {
          if engine.validJson(st.outputJson) {
            entry := entry.(data := Some(st.outputJson));
          }
        }
        entries := entries[name := entry];
      }
      data := TemplateData(spec.input, entries);
      assert data.steps == DataOf(engine, spec, status.steps, ix).steps;
    }

    method RearmIfDue(engine: Engine, step: Step, ix: map<string, nat>, data: TemplateData)
      requires Pointers(ix, status.steps)
      modifies this
      ensures status == old(status).(steps := LoopStep(engine, step, old(status.steps), ix, data))
    {
      hide IsTruthy;
      if step.loop.None? || step.name !in ix || !status.steps[ix[step.name]].phase.Succeeded? {
        return;
      }
      var i := ix[step.name];
      var st := status.steps[i];
      var maxIter := step.loop.value.maxIterations;
      if maxIter <= 0 {
        maxIter := DEFAULT_MAX_ITERATIONS;
      }
      if st.iterations >= maxIter {
        return;
      }
      var condResult := engine.resolve(step.loop.value.condition, data);
      if condResult.None? || !IsTruthy(condResult.value) {
        return;
      }
      st := st.(iterations := st.iterations + 1);
      st := st.(phase := Pending, taskId := "", output := "", outputJson := "");
      st := st.(startTime := None, completionTime := None);
      st := st.(message := LoopIteration(st.iterations, maxIter));
      status := status.(steps := status.steps[i := st]);
    }

    method EvaluateLoops(engine: Engine, ix: map<string, nat>, data: TemplateData)
      requires Pointers(ix, status.steps)
      modifies this
      ensures status == old(status).(steps := LoopsEvaluated(engine, spec, old(status.steps), ix, data))
    {
      hide LoopStep;
      for k := 0 to |spec.steps|
        invariant Pointers(ix, status.steps)
        invariant status == old(status).(steps := LoopsUpTo(engine, spec, old(status.steps), ix, data, k))
      {
        RearmIfDue(engine, spec.steps[k], ix, data);
      }
    }

    method SumStepTokens() returns (total: int)
      modifies this
      ensures total == TokenSum(old(status.steps))
      ensures status == old(status).(totals := Totals(old(status.steps), old(status.totals)))
    {
      var totalIn, totalOut := 0, 0;
      for i := 0 to |status.steps|
        invariant status == old(status)
        invariant totalIn == InputTokens(status.steps[..i]) && totalOut == OutputTokens(status.steps[..i])
      {
        assert status.steps[..i + 1][..i] == status.steps[..i];
        var st := status.steps[i];
        if st.tokenUsage.Some? {
          totalIn := totalIn + st.tokenUsage.value.inputTokens;
          totalOut := totalOut + st.tokenUsage.value.outputTokens;
        }
      }
      assert status.steps[..|status.steps|] == status.steps;
      if totalIn > 0 || totalOut > 0 {
        status := status.(totals := Some(TokenUsage(totalIn, totalOut, totalIn + totalOut)));
      }
      return totalIn + totalOut;
    }

    method EnforceTimeout(now: Time) returns (timedOut: bool)
      modifies this
      ensures timedOut <==> Overdue(spec, old(status), now)
      ensures status == if timedOut
                        then old(status).(phase := FlowFailed, completionTime := Some(now), ready := Some(TimedOut))
                        else old(status)
    {
      if spec.timeoutSeconds <= 0 || status.startTime.None? {
        return false;
      }
      var deadline := status.startTime.value + spec.timeoutSeconds * NANOS_PER_SECOND;
      if !(now > deadline) {
        return false;
      }
      status := status.(phase := FlowFailed, completionTime := Some(now));
      status := status.(ready := Some(TimedOut));
      return true;
    }

    method UpdateFlowPhase(engine: Engine, data: TemplateData, now: Time)
      modifies this
      ensures status == PhaseUpdated(engine, spec, old(status), data, now)
    {
      var timedOut := EnforceTimeout(now);
      if timedOut {
        return;
      }
      var totalTokens := SumStepTokens();
      if spec.maxTokens > 0 && totalTokens > spec.maxTokens {
        status := status.(phase := FlowFailed, completionTime := Some(now), ready := Some(BudgetExceeded));
        return;
      }
      var failed, allDone := false, true;
      for i := 0 to |status.steps|
        invariant failed <==> exists j :: 0 <= j < i && status.steps[j].phase.Failed?
        invariant !failed ==> (allDone <==> forall j :: 0 <= j < i ==> status.steps[j].phase.Done())
      {
        match status.steps[i].phase {
          case Failed => failed := true;
          case Succeeded =>
          case Skipped =>
          case _ => allDone := false;
        }
      }
      if failed {
        status := status.(phase := FlowFailed, completionTime := Some(now), ready := Some(StepFailed));
      } else if allDone {
        status := status.(phase := FlowSucceeded, completionTime := Some(now));
        if spec.output != "" {
          var out := engine.resolve(spec.output, data);
          status := status.(output := if out.Some? then out.value else "");
        }
        status := status.(ready := Some(AllSucceeded));
      }
    }
  }
}

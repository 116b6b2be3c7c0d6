/** The executor halts on every flow, and how often it executes a step. */
module LocalTermination {
  import opened FlowTypes
  import opened Templates
  import opened FlowLogic
  import opened LocalExecutor

  /** The largest cap among the steps of a name: names need not be unique here. */
  function NameCap(steps: seq<Step>, name: string): (cap: nat)
    ensures forall i :: 0 <= i < |steps| && steps[i].name == name ==> EffectiveMax(steps[i]) <= cap
  {
    if steps == [] then 0
    else
      var last := |steps| - 1;
      var cap := NameCap(steps[..last], name);
      if steps[last].name == name && EffectiveMax(steps[last]) > cap then EffectiveMax(steps[last]) else cap
  }

  function LocalWeight(spec: FlowSpec, st: StepStatus): (w: nat) {
    var left := NameCap(spec.steps, st.name) - st.iterations;
    (if left > 0 then 2 * left else 0) + (if st.phase.Pending? then 1 else 0)
  }

  function LocalMeasure(spec: FlowSpec, steps: seq<StepStatus>): (m: nat) {
    if steps == [] then 0
    else LocalMeasure(spec, steps[..|steps| - 1]) + LocalWeight(spec, steps[|steps| - 1])
  }

  /** b is a later state of the same records, none of them heavier. */
  ghost predicate NoHeavier(spec: FlowSpec, a: seq<StepStatus>, b: seq<StepStatus>) {
    && |a| == |b|
    && forall i :: 0 <= i < |a| ==> b[i].name == a[i].name && LocalWeight(spec, b[i]) <= LocalWeight(spec, a[i])
  }

  lemma {:induction false} MeasureFollows(spec: FlowSpec, a: seq<StepStatus>, b: seq<StepStatus>, moved: nat)
    requires NoHeavier(spec, a, b)
    ensures LocalMeasure(spec, b) <= LocalMeasure(spec, a)
    ensures moved < |a| && LocalWeight(spec, b[moved]) < LocalWeight(spec, a[moved]) ==>
              LocalMeasure(spec, b) < LocalMeasure(spec, a)
  {
    hide LocalWeight;
    if a != [] {
      MeasureFollows(spec, a[..|a| - 1], b[..|b| - 1], moved);
    }
  }

  lemma LoopStepLightens(engine: Engine, spec: FlowSpec, k: nat, steps: seq<StepStatus>, ix: map<string, nat>,
                         data: TemplateData)
    requires k < |spec.steps| && Pointers(ix, steps)
    ensures NoHeavier(spec, steps, LoopStep(engine, spec.steps[k], steps, ix, data))
  {
    hide IsTruthy;
    var step := spec.steps[k];
    if step.name in ix && RepetitionDue(engine, step, steps[ix[step.name]], data) {
      var st := steps[ix[step.name]];
      assert EffectiveMax(step) <= NameCap(spec.steps, st.name);
      assert LocalWeight(spec, Rearm(st, LoopCap(step.loop.value))) <= LocalWeight(spec, st);
    }
  }

  lemma {:induction false} LoopsLighten(engine: Engine, spec: FlowSpec, steps: seq<StepStatus>, ix: map<string, nat>,
                                        data: TemplateData, k: nat)
    requires k <= |spec.steps| && Pointers(ix, steps)
    ensures NoHeavier(spec, steps, LoopsUpTo(engine, spec, steps, ix, data, k))
  {
    hide LoopStep, LocalWeight;
    if k > 0 {
      LoopsLighten(engine, spec, steps, ix, data, k - 1);
      LoopStepLightens(engine, spec, k - 1, LoopsUpTo(engine, spec, steps, ix, data, k - 1), ix, data);
    }
  }

  /** Only Pending and a repetition left weigh anything. */
  lemma LightRecord(spec: FlowSpec, a: StepStatus, b: StepStatus)
    requires b.name == a.name && b.iterations == a.iterations && (b.phase.Pending? ==> a.phase.Pending?)
    ensures LocalWeight(spec, b) <= LocalWeight(spec, a)
  {
  }

  lemma LightUpdate(spec: FlowSpec, a: seq<StepStatus>, b: seq<StepStatus>, i: nat, st: StepStatus)
    requires NoHeavier(spec, a, b) && i < |b|
    requires st.name == b[i].name && st.iterations == b[i].iterations && (st.phase.Pending? ==> b[i].phase.Pending?)
    ensures NoHeavier(spec, a, b[i := st])
  {
    hide LocalWeight;
    LightRecord(spec, b[i], st);
  }

  /** A ready step was pending when the round began. */
  ghost predicate RoundOk(spec: FlowSpec, steps: seq<StepStatus>, ix: map<string, nat>, r: Round)
    requires Pointers(ix, steps)
  {
    && NoHeavier(spec, steps, r.steps)
    && (forall i :: 0 <= i < |steps| ==>
          r.steps[i] == steps[i] || (steps[i].phase.Pending? && r.steps[i].phase.Skipped?))
    && (forall j :: 0 <= j < |r.ready| ==>
          r.ready[j] < |spec.steps| && spec.steps[r.ready[j]].name in ix
          && steps[ix[spec.steps[r.ready[j]].name]].phase.Pending?)
  }

  lemma RoundOkAtStart(spec: FlowSpec, steps: seq<StepStatus>, ix: map<string, nat>)
    requires Pointers(ix, steps)
    ensures RoundOk(spec, steps, ix, Round(steps, []))
  {
  }

  lemma ReadyStepLightens(engine: Engine, spec: FlowSpec, steps: seq<StepStatus>, r: Round, ix: map<string, nat>,
                          data: TemplateData, k: nat, now: Time)
    requires k < |spec.steps| && Pointers(ix, steps) && Pointers(ix, r.steps) && RoundOk(spec, steps, ix, r)
    ensures RoundOk(spec, steps, ix, ReadyStep(engine, spec, r, ix, data, k, now))
  {
    hide IsTruthy, LocalWeight, DepsSucceeded, SkipsStep;
    var q := ReadyStep(engine, spec, r, ix, data, k, now);
    if q.steps != r.steps {
      var i := ix[spec.steps[k].name];
      LightUpdate(spec, steps, r.steps, i, SkipStep(r.steps[i], now));
    }
  }

  lemma {:induction false} RoundLightens(engine: Engine, spec: FlowSpec, steps: seq<StepStatus>, ix: map<string, nat>,
                                         data: TemplateData, clock: nat -> Time, k: nat)
    requires k <= |spec.steps| && Pointers(ix, steps)
    ensures RoundOk(spec, steps, ix, ReadyUpTo(engine, spec, steps, ix, data, clock, k))
  {
    hide ReadyStep, RoundOk;
    if k > 0 {
      RoundLightens(engine, spec, steps, ix, data, clock, k - 1);
      ReadyStepLightens(engine, spec, steps, ReadyUpTo(engine, spec, steps, ix, data, clock, k - 1), ix, data, k - 1,
                        clock(k - 1));
    } else {
      RoundOkAtStart(spec, steps, ix);
    }
  }

  lemma StartOneLightens(spec: FlowSpec, a: seq<StepStatus>, b: Bench, ix: map<string, nat>, name: string, now: Time)
    requires Pointers(ix, b.steps) && name in ix && NoHeavier(spec, a, b.steps)
    ensures var r := StartOne(b, ix, name, now);
            NoHeavier(spec, a, r.steps) && StayStarted(b.steps, r.steps) && !r.steps[ix[name]].phase.Pending?
  {
    hide LocalWeight, NoHeavier;
    LightUpdate(spec, a, b.steps, ix[name], StartStep(b.steps[ix[name]], now));
  }

  lemma {:induction false} StartLightens(spec: FlowSpec, b: Bench, ix: map<string, nat>, ready: seq<nat>,
                                         clock: nat -> Time, k: nat)
    requires Pointers(ix, b.steps) && Runnable(spec, ix, ready) && k <= |ready|
    ensures var r := StartedUpTo(spec, b, ix, ready, clock, k);
            && NoHeavier(spec, b.steps, r.steps)
            && (forall j :: 0 <= j < k ==> !r.steps[ix[spec.steps[ready[j]].name]].phase.Pending?)
  {
    hide LocalWeight, StartOne, StartedUpTo;
    StartedUnfolds(spec, b, ix, ready, clock, k);
    if k > 0 {
      StartLightens(spec, b, ix, ready, clock, k - 1);
      StartOneLightens(spec, b.steps, StartedUpTo(spec, b, ix, ready, clock, k - 1), ix, spec.steps[ready[k - 1]].name,
                       clock(k - 1));
    }
  }

  ghost predicate StayStarted(a: seq<StepStatus>, b: seq<StepStatus>) {
    |a| == |b| && forall i :: 0 <= i < |a| && !a[i].phase.Pending? ==> !b[i].phase.Pending?
  }

  lemma {:induction false} FinishLightens(env: LocalEnv, spec: FlowSpec, b: Bench, ix: map<string, nat>,
                                          data: TemplateData, n: nat, ready: seq<nat>, order: seq<nat>, k: nat)
    requires Pointers(ix, b.steps) && Runnable(spec, ix, ready) && k <= |order|
    requires forall j :: 0 <= j < |order| ==> order[j] < |ready|
    ensures var r := FinishedUpTo(env, spec, b, ix, data, n, ready, order, k);
            NoHeavier(spec, b.steps, r.steps) && StayStarted(b.steps, r.steps)
  {
    hide LocalWeight, ReplyTo, FinishOne;
    if k > 0 {
      FinishLightens(env, spec, b, ix, data, n, ready, order, k - 1);
      var pos := ready[order[k - 1]];
      FinishOneLightens(spec, b.steps, FinishedUpTo(env, spec, b, ix, data, n, ready, order, k - 1), ix,
                        spec.steps[pos].name, ReplyTo(env, spec, data, n, pos), env.clock(n).done(k - 1));
    }
  }

  lemma FinishOneLightens(spec: FlowSpec, a: seq<StepStatus>, b: Bench, ix: map<string, nat>, name: string,
                          reply: Reply, now: Time)
    requires Pointers(ix, b.steps) && name in ix && NoHeavier(spec, a, b.steps)
    ensures var r := FinishOne(b, ix, name, reply, now);
            NoHeavier(spec, a, r.steps) && StayStarted(b.steps, r.steps)
  {
    hide LocalWeight, NoHeavier;
    LightUpdate(spec, a, b.steps, ix[name], FinishStep(b.steps[ix[name]], reply, now));
  }

  lemma ParseLightens(engine: Engine, spec: FlowSpec, steps: seq<StepStatus>, ix: map<string, nat>)
    ensures NoHeavier(spec, steps, ParseAll(engine, spec, steps, ix))
    ensures forall i :: 0 <= i < |steps| ==> ParseAll(engine, spec, steps, ix)[i].phase == steps[i].phase
  {
    hide NameCap, ParsedJson, HasSchema;
  }

  lemma RanLightens(env: LocalEnv, spec: FlowSpec, b: Bench, ix: map<string, nat>, data: TemplateData, n: nat,
                    ready: seq<nat>)
    requires Pointers(ix, b.steps) && Runnable(spec, ix, ready) && Permutation(env.arrivals(n, |ready|), |ready|)
    ensures var r := Ran(env, spec, b, ix, data, n, ready);
            && NoHeavier(spec, b.steps, r.steps)
            && (forall j :: 0 <= j < |ready| ==> !r.steps[ix[spec.steps[ready[j]].name]].phase.Pending?)
  {
    hide LocalWeight, StartedUpTo, FinishedUpTo;
    var started := StartedUpTo(spec, b, ix, ready, env.clock(n).start, |ready|);
    StartLightens(spec, b, ix, ready, env.clock(n).start, |ready|);
    FinishLightens(env, spec, started, ix, data, n, ready, env.arrivals(n, |ready|), |ready|);
  }

  lemma EmptyRoundHalts(env: LocalEnv, spec: FlowSpec, s: LocalState, n: nat)
    requires EveryResultArrives(env)
    ensures Batch(env, spec, s, n).round.ready == [] ==> Batch(env, spec, s, n).final.halted
  {
    hide LoopsEvaluated, ReadyUpTo, Ran, Closed, DataOf, StatusByName, PhaseUpdated;
  }

  lemma ClosedLightens(env: LocalEnv, spec: FlowSpec, st: FlowStatus, ran: seq<StepStatus>, ix: map<string, nat>,
                       n: nat)
    requires Pointers(ix, ran)
    ensures var r := Closed(env, spec, st, ran, ix, n).steps;
            NoHeavier(spec, ran, r) && forall i :: 0 <= i < |ran| ==> r[i].phase == ran[i].phase
  {
    hide ParseAll, DataOf, FlowOutput, TokenSum, AnyFailed, AllDone, Totals, Overdue, NoHeavier;
    ParseLightens(env.engine, spec, ran, ix);
  }

  lemma StagesLighten(env: LocalEnv, spec: FlowSpec, s: LocalState, n: nat)
    requires EveryResultArrives(env)
    ensures var t := Batch(env, spec, s, n);
            NoHeavier(spec, s.status.steps, t.looped) && RoundOk(spec, t.looped, t.ix, t.round)
  {
    hide LoopsUpTo, ReadyUpTo, Ran, Closed, DataOf, StatusByName, PhaseUpdated, NoHeavier, RoundOk;
    var t := Batch(env, spec, s, n);
    LoopsLighten(env.engine, spec, s.status.steps, t.ix, t.data, |spec.steps|);
    RoundLightens(env.engine, spec, t.looped, t.ix, t.data, env.clock(n).skip, |spec.steps|);
  }

  /** What comes after the round weighs no more, and no ready step stays pending. */
  lemma ResultsLighten(env: LocalEnv, spec: FlowSpec, s: LocalState, n: nat)
    requires EveryResultArrives(env)
    ensures var t := Batch(env, spec, s, n);
            && NoHeavier(spec, t.round.steps, t.final.status.steps)
            && forall j :: 0 <= j < |t.round.ready| ==>
                 !t.final.status.steps[t.ix[spec.steps[t.round.ready[j]].name]].phase.Pending?
  {
    hide LoopsEvaluated, ReadyUpTo, Ran, Closed, DataOf, StatusByName, FlowOutput, TokenSum, AnyFailed, AllDone, Totals,
      Overdue, LocalWeight;
    var t := Batch(env, spec, s, n);
    if t.round.ready != [] {
      assert Permutation(env.arrivals(n, |t.round.ready|), |t.round.ready|);
      RanLightens(env, spec, Bench(t.round.steps, s.log), t.ix, t.data, n, t.round.ready);
      ClosedLightens(env, spec, s.status, t.bench.steps, t.ix, n);
    }
  }

  lemma BatchLightens(env: LocalEnv, spec: FlowSpec, s: LocalState, n: nat)
    requires EveryResultArrives(env)
    ensures var t := Batch(env, spec, s, n);
            NoHeavier(spec, s.status.steps, t.looped) && NoHeavier(spec, t.looped, t.final.status.steps)
  {
    hide Batch, LocalWeight;
    StagesLighten(env, spec, s, n);
    ResultsLighten(env, spec, s, n);
  }

  /** The first ready step was pending and is not any more. */
  lemma BatchMoves(env: LocalEnv, spec: FlowSpec, s: LocalState, n: nat)
    requires EveryResultArrives(env) && Batch(env, spec, s, n).round.ready != []
    ensures var t := Batch(env, spec, s, n);
            var moved := t.ix[spec.steps[t.round.ready[0]].name];
            moved < |t.looped| && LocalWeight(spec, t.final.status.steps[moved]) < LocalWeight(spec, t.looped[moved])
  {
    hide Batch, LocalWeight;
    var t := Batch(env, spec, s, n);
    StagesLighten(env, spec, s, n);
    ResultsLighten(env, spec, s, n);
    BatchLightens(env, spec, s, n);
    var moved := t.ix[spec.steps[t.round.ready[0]].name];
    StartedIsLighter(spec, t.looped[moved], t.final.status.steps[moved]);
  }

  /** A batch never raises the measure, and lowers it when the run goes on. */
  lemma BatchLowersMeasure(env: LocalEnv, spec: FlowSpec, s: LocalState, n: nat)
    requires EveryResultArrives(env)
    ensures var t := Batch(env, spec, s, n);
            && LocalMeasure(spec, t.final.status.steps) <= LocalMeasure(spec, s.status.steps)
            && (!t.final.halted ==> LocalMeasure(spec, t.final.status.steps) < LocalMeasure(spec, s.status.steps))
  {
    hide Batch, LocalMeasure, LocalWeight, NoHeavier;
    var t := Batch(env, spec, s, n);
    BatchLightens(env, spec, s, n);
    MeasureFollows(spec, s.status.steps, t.looped, 0);
    if t.round.ready == [] {
      MeasureFollows(spec, t.looped, t.final.status.steps, 0);
    } else {
      var moved := t.ix[spec.steps[t.round.ready[0]].name];
      BatchMoves(env, spec, s, n);
      MeasureFollows(spec, t.looped, t.final.status.steps, moved);
    }
    EmptyRoundHalts(env, spec, s, n);
  }

  /** Only a pending record has an odd weight. */
  lemma StartedIsLighter(spec: FlowSpec, a: StepStatus, b: StepStatus)
    requires a.phase.Pending? && !b.phase.Pending? && LocalWeight(spec, b) <= LocalWeight(spec, a)
    ensures LocalWeight(spec, b) < LocalWeight(spec, a)
  {
  }

  lemma {:induction false} HaltedStays(env: LocalEnv, spec: FlowSpec, st0: FlowStatus, n: nat, m: nat)
    requires EveryResultArrives(env) && n <= m && LocalRun(env, spec, st0, n).halted
    ensures LocalRun(env, spec, st0, m) == LocalRun(env, spec, st0, n)
    decreases m
  {
    hide Batch;
    if n < m {
      HaltedStays(env, spec, st0, n, m - 1);
    }
  }

  lemma {:induction false} MeasureAfter(env: LocalEnv, spec: FlowSpec, st0: FlowStatus, n: nat)
    requires EveryResultArrives(env) && !LocalRun(env, spec, st0, n).halted
    ensures LocalMeasure(spec, LocalRun(env, spec, st0, n).status.steps) + n
            <= LocalMeasure(spec, LocalRun(env, spec, st0, 0).status.steps)
  {
    hide Batch, LocalMeasure;
    if n > 0 {
      MeasureAfter(env, spec, st0, n - 1);
      BatchLowersMeasure(env, spec, LocalRun(env, spec, st0, n - 1), n - 1);
    }
  }

  lemma RunStarts(env: LocalEnv, spec: FlowSpec, st0: FlowStatus)
    requires EveryResultArrives(env)
    ensures LocalRun(env, spec, st0, 0).status == Initialized(spec, st0, env.started)
  {
    hide Batch;
  }

  /** Every run halts, whatever the flow, its status, the agents, the conditions and the order of
      arrival, after at most as many batches as the initial measure plus one. */
  lemma EveryRunHalts(env: LocalEnv, spec: FlowSpec, st0: FlowStatus)
    requires EveryResultArrives(env)
    ensures LocalRun(env, spec, st0, LocalMeasure(spec, Initialized(spec, st0, env.started).steps) + 1).halted
  {
    hide LocalMeasure, LocalRun, Initialized;
    RunStarts(env, spec, st0);
    var bound := LocalMeasure(spec, Initialized(spec, st0, env.started).steps) + 1;
    if !LocalRun(env, spec, st0, bound).halted {
      MeasureAfter(env, spec, st0, bound);
    }
  }
}

/** Runs of the executor on validated flows with unique names: what a batch does to each step, how
    often a step is executed, and when a run ends with the flow finished. */
module LocalRuns {
  import opened FlowTypes
  import opened Templates
  import opened FlowLogic
  import opened LocalExecutor
  import opened ControllerSafety
  import ControllerProgress
  import Dag

  // --- One round ------------------------------------------------------------------------------

  /** Ready positions are listed once, in spec order. */
  ghost predicate Ascending(ready: seq<nat>) {
    forall a, b :: 0 <= a < b < |ready| ==> ready[a] < ready[b]
  }

  lemma ReadyStepTouchesOne(engine: Engine, spec: FlowSpec, r: Round, ix: map<string, nat>, data: TemplateData, k: nat,
                            now: Time)
    requires Faithful(spec, ix) && Pointers(ix, r.steps) && k < |spec.steps| && Mirrors(spec, r.steps)
    ensures var q := ReadyStep(engine, spec, r, ix, data, k, now);
            && Mirrors(spec, q.steps)
            && (q.ready == r.ready || q.ready == r.ready + [k])
            && forall i :: 0 <= i < |r.steps| && i != k ==> q.steps[i] == r.steps[i]
  {
    hide IsTruthy, DepsSucceeded;
    assert ix[spec.steps[k].name] == k;
  }

  lemma {:induction false} RoundAscends(engine: Engine, spec: FlowSpec, steps: seq<StepStatus>, ix: map<string, nat>,
                                        data: TemplateData, clock: nat -> Time, k: nat)
    requires Faithful(spec, ix) && Pointers(ix, steps) && k <= |spec.steps| && Mirrors(spec, steps)
    ensures var r := ReadyUpTo(engine, spec, steps, ix, data, clock, k); Mirrors(spec, r.steps) && Ascending(r.ready)
  {
    hide ReadyStep, Faithful, Mirrors;
    if k > 0 {
      RoundAscends(engine, spec, steps, ix, data, clock, k - 1);
      ReadyStepTouchesOne(engine, spec, ReadyUpTo(engine, spec, steps, ix, data, clock, k - 1), ix, data, k - 1,
                          clock(k - 1));
    }
  }

  lemma {:induction false} RoundPrefix(engine: Engine, spec: FlowSpec, steps: seq<StepStatus>, ix: map<string, nat>,
                                       data: TemplateData, clock: nat -> Time, j: nat, k: nat)
    requires Faithful(spec, ix) && Pointers(ix, steps) && j <= k <= |spec.steps| && Mirrors(spec, steps)
    ensures var p := ReadyUpTo(engine, spec, steps, ix, data, clock, j);
            var r := ReadyUpTo(engine, spec, steps, ix, data, clock, k);
            && p.ready <= r.ready
            && (forall m :: |p.ready| <= m < |r.ready| ==> j <= r.ready[m])
            && (forall i :: 0 <= i < j || k <= i < |steps| ==> p.steps[i] == r.steps[i])
    decreases k
  {
    hide ReadyUpTo, ReadyStep, Faithful, Mirrors;
    SameLength(spec, steps);
    if j < k {
      RoundUnfolds(engine, spec, steps, ix, data, clock, k);
      RoundPrefix(engine, spec, steps, ix, data, clock, j, k - 1);
      RoundAscends(engine, spec, steps, ix, data, clock, k - 1);
      ReadyStepTouchesOne(engine, spec, ReadyUpTo(engine, spec, steps, ix, data, clock, k - 1), ix, data, k - 1,
                          clock(k - 1));
    }
  }

  lemma RoundUnfolds(engine: Engine, spec: FlowSpec, steps: seq<StepStatus>, ix: map<string, nat>, data: TemplateData,
                     clock: nat -> Time, k: nat)
    requires Pointers(ix, steps) && 0 < k <= |spec.steps|
    ensures ReadyUpTo(engine, spec, steps, ix, data, clock, k) ==
            ReadyStep(engine, spec, ReadyUpTo(engine, spec, steps, ix, data, clock, k - 1), ix, data, k - 1,
                      clock(k - 1))
  {
    hide ReadyStep;
  }

  lemma TurnOf(engine: Engine, spec: FlowSpec, steps: seq<StepStatus>, ix: map<string, nat>, data: TemplateData,
               clock: nat -> Time, i: nat)
    requires Faithful(spec, ix) && Pointers(ix, steps) && i < |spec.steps| && Mirrors(spec, steps)
    requires ReadyUpTo(engine, spec, steps, ix, data, clock, i).steps[i] == steps[i]
    ensures var turn := ReadyUpTo(engine, spec, steps, ix, data, clock, i);
            var next := ReadyUpTo(engine, spec, steps, ix, data, clock, i + 1);
            var free := steps[i].phase.Pending? && DepsSucceeded(spec.steps[i].dependsOn, turn.steps, ix);
            && next.steps[i] == (if free && SkipsStep(engine, spec.steps[i], data)
                                 then SkipStep(steps[i], clock(i)) else steps[i])
            && next.ready == (if free && !SkipsStep(engine, spec.steps[i], data) then turn.ready + [i] else turn.ready)
  {
    hide IsTruthy, DepsSucceeded;
    assert ix[spec.steps[i].name] == i;
  }

  /** The fate of step i in a round: its dependencies are judged when its turn comes. */
  lemma ReadyFate(engine: Engine, spec: FlowSpec, steps: seq<StepStatus>, ix: map<string, nat>, data: TemplateData,
                  clock: nat -> Time, i: nat)
    requires Faithful(spec, ix) && Pointers(ix, steps) && i < |spec.steps| && Mirrors(spec, steps)
    ensures var r := ReadyUpTo(engine, spec, steps, ix, data, clock, |spec.steps|);
            var turn := ReadyUpTo(engine, spec, steps, ix, data, clock, i);
            var free := steps[i].phase.Pending? && DepsSucceeded(spec.steps[i].dependsOn, turn.steps, ix);
            && turn.steps[i] == steps[i]
            && r.steps[i] == (if free && SkipsStep(engine, spec.steps[i], data)
                              then SkipStep(steps[i], clock(i)) else steps[i])
            && (i in r.ready <==> free && !SkipsStep(engine, spec.steps[i], data))
  {
    hide ReadyUpTo, SkipsStep, DepsSucceeded, Faithful, Mirrors;
    SameLength(spec, steps);
    RoundStarts(engine, spec, steps, ix, data, clock);
    RoundPrefix(engine, spec, steps, ix, data, clock, 0, i);
    RoundPrefix(engine, spec, steps, ix, data, clock, i + 1, |spec.steps|);
    TurnOf(engine, spec, steps, ix, data, clock, i);
    var turn := ReadyUpTo(engine, spec, steps, ix, data, clock, i);
    var next := ReadyUpTo(engine, spec, steps, ix, data, clock, i + 1);
    var r := ReadyUpTo(engine, spec, steps, ix, data, clock, |spec.steps|);
    if i in next.ready {
      assert next.ready[|turn.ready|] == r.ready[|turn.ready|] == i;
    }
  }

  /** A dependency of step i counts in its turn when it is done at the end of the round and either
      was done before or is listed earlier. */
  lemma DepAtTurn(engine: Engine, spec: FlowSpec, steps: seq<StepStatus>, ix: map<string, nat>, data: TemplateData,
                  clock: nat -> Time, i: nat, j: nat)
    requires Faithful(spec, ix) && Pointers(ix, steps) && i < |spec.steps| && j < |spec.steps| && Mirrors(spec, steps)
    ensures var r := ReadyUpTo(engine, spec, steps, ix, data, clock, |spec.steps|);
            var turn := ReadyUpTo(engine, spec, steps, ix, data, clock, i);
            && turn.steps[j] == (if j < i then r.steps[j] else steps[j])
            && (turn.steps[j].phase.Done() ==> r.steps[j].phase.Done())
  {
    hide IsTruthy, ReadyUpTo;
    RoundPrefix(engine, spec, steps, ix, data, clock, i, |spec.steps|);
    RoundPrefix(engine, spec, steps, ix, data, clock, 0, i);
    RoundStarts(engine, spec, steps, ix, data, clock);
    ReadyFate(engine, spec, steps, ix, data, clock, j);
  }

  lemma RoundStarts(engine: Engine, spec: FlowSpec, steps: seq<StepStatus>, ix: map<string, nat>, data: TemplateData,
                    clock: nat -> Time)
    requires Pointers(ix, steps)
    ensures ReadyUpTo(engine, spec, steps, ix, data, clock, 0) == Round(steps, [])
  {
  }

  // --- Running the ready steps ----------------------------------------------------------------

  /** Where step i is among the first k entries of a list of positions. */
  ghost predicate Among(list: seq<nat>, k: nat, i: nat)
    requires k <= |list|
  {
    exists j :: 0 <= j < k && list[j] == i
  }

  lemma StartTouchesOne(spec: FlowSpec, q: Bench, ix: map<string, nat>, pos: nat, now: Time)
    requires Faithful(spec, ix) && Pointers(ix, q.steps) && pos < |spec.steps|
    ensures StartOne(q, ix, spec.steps[pos].name, now).steps == q.steps[pos := StartStep(q.steps[pos], now)]
  {
  }

  lemma {:induction false} StartedPointwise(spec: FlowSpec, b: Bench, ix: map<string, nat>, ready: seq<nat>,
                                            clock: nat -> Time, k: nat, i: nat)
    requires Faithful(spec, ix) && Pointers(ix, b.steps) && Mirrors(spec, b.steps)
    requires Runnable(spec, ix, ready) && Ascending(ready) && k <= |ready| && i < |spec.steps|
    ensures var r := StartedUpTo(spec, b, ix, ready, clock, k).steps[i];
            if Among(ready, k, i)
            then exists m: nat :: m < k && ready[m] == i && r == StartStep(b.steps[i], clock(m))
            else r == b.steps[i]
  {
    hide Faithful, Mirrors, StartedUpTo, StartOne;
    SameLength(spec, b.steps);
    if k > 0 {
      StartedPointwise(spec, b, ix, ready, clock, k - 1, i);
      StartedUnfolds(spec, b, ix, ready, clock, k);
      StartTouchesOne(spec, StartedUpTo(spec, b, ix, ready, clock, k - 1), ix, ready[k - 1], clock(k - 1));
    } else {
      StartedUnfolds(spec, b, ix, ready, clock, k);
    }
  }

  lemma {:induction false} FinishedPointwise(env: LocalEnv, spec: FlowSpec, b: Bench, ix: map<string, nat>,
                                             data: TemplateData, n: nat,
                                             ready: seq<nat>, order: seq<nat>, k: nat, i: nat)
    requires Faithful(spec, ix) && Pointers(ix, b.steps) && Mirrors(spec, b.steps)
    requires Runnable(spec, ix, ready) && Ascending(ready) && Permutation(order, |ready|) && k <= |order|
    requires i < |spec.steps|
    ensures var r := FinishedUpTo(env, spec, b, ix, data, n, ready, order, k).steps[i];
            if exists j :: 0 <= j < k && ready[order[j]] == i
            then exists j: nat :: j < k && ready[order[j]] == i
                   && r == FinishStep(b.steps[i], ReplyTo(env, spec, data, n, i), env.clock(n).done(j))
            else r == b.steps[i]
  {
    hide ReplyTo, FinishOne, FinishedUpTo, Faithful, Mirrors;
    FinishedUnfolds(env, spec, b, ix, data, n, ready, order, k);
    SameLength(spec, b.steps);
    if k > 0 {
      FinishedPointwise(env, spec, b, ix, data, n, ready, order, k - 1, i);
      var q := FinishedUpTo(env, spec, b, ix, data, n, ready, order, k - 1);
      var pos := ready[order[k - 1]];
      FinishTouchesOne(spec, q, ix, pos, ReplyTo(env, spec, data, n, pos), env.clock(n).done(k - 1));
      if pos == i {
        forall j | 0 <= j < k - 1 ensures ready[order[j]] != i {
          assert order[j] != order[k - 1];
        }
      }
    }
  }

  lemma FinishTouchesOne(spec: FlowSpec, q: Bench, ix: map<string, nat>, pos: nat, reply: Reply, now: Time)
    requires Faithful(spec, ix) && Pointers(ix, q.steps) && pos < |spec.steps|
    ensures FinishOne(q, ix, spec.steps[pos].name, reply, now).steps ==
            q.steps[pos := FinishStep(q.steps[pos], reply, now)]
  {
  }

  /** What running does to step i: a ready step ends with its agent's reply, in whatever order the
      replies arrive; every other step is left alone. */
  lemma RanPointwise(env: LocalEnv, spec: FlowSpec, b: Bench, ix: map<string, nat>, data: TemplateData, n: nat,
                     ready: seq<nat>, i: nat)
    requires Faithful(spec, ix) && Pointers(ix, b.steps) && Mirrors(spec, b.steps)
    requires Runnable(spec, ix, ready) && Ascending(ready) && Permutation(env.arrivals(n, |ready|), |ready|)
    requires i < |spec.steps|
    ensures var r := Ran(env, spec, b, ix, data, n, ready).steps[i];
            if i in ready
            then exists m: nat, j: nat ::
                   && m < |ready| && ready[m] == i && j < |ready| && env.arrivals(n, |ready|)[j] == m
                   && r == FinishStep(StartStep(b.steps[i], env.clock(n).start(m)), ReplyTo(env, spec, data, n, i),
                                      env.clock(n).done(j))
            else r == b.steps[i]
  {
    hide ReplyTo, FinishedUpTo, StartedUpTo;
    var order := env.arrivals(n, |ready|);
    var started := StartedUpTo(spec, b, ix, ready, env.clock(n).start, |ready|);
    forall j | 0 <= j < |spec.steps| ensures started.steps[j].name == spec.steps[j].name {
      StartedPointwise(spec, b, ix, ready, env.clock(n).start, |ready|, j);
    }
    StartedPointwise(spec, b, ix, ready, env.clock(n).start, |ready|, i);
    FinishedPointwise(env, spec, started, ix, data, n, ready, order, |ready|, i);
    if i in ready {
      var m :| 0 <= m < |ready| && ready[m] == i;
      assert m in order;
      var j :| 0 <= j < |order| && order[j] == m;
      assert ready[order[j]] == i;
    }
  }

  // --- A batch --------------------------------------------------------------------------------

  /** The stages of a batch up to the choice of ready steps. */
  lemma BatchStages(env: LocalEnv, spec: FlowSpec, s: LocalState, n: nat)
    requires EveryResultArrives(env) && UniqueNames(spec) && Mirrors(spec, s.status.steps)
    ensures var t := Batch(env, spec, s, n);
            && Faithful(spec, t.ix) && Mirrors(spec, t.looped) && Ascending(t.round.ready)
            && Mirrors(spec, t.round.steps)
            && t.round == ReadyUpTo(env.engine, spec, t.looped, t.ix, t.data, env.clock(n).skip, |spec.steps|)
            && (forall i :: 0 <= i < |spec.steps| ==>
                  t.looped[i] == if RepetitionDue(env.engine, spec.steps[i], s.status.steps[i], t.data)
                                 then Rearm(s.status.steps[i], LoopCap(spec.steps[i].loop.value))
                                 else s.status.steps[i])
  {
    hide IsTruthy, ReadyUpTo, Ran, LoopsEvaluated, Closed, DataOf, StatusByName, PhaseUpdated, RepetitionDue, Rearm;
    var t := Batch(env, spec, s, n);
    UniqueNamesAreFaithful(spec, s.status.steps);
    LoopsEvaluatedPointwise(env.engine, spec, s.status.steps, t.ix, t.data);
    RoundAscends(env.engine, spec, t.looped, t.ix, t.data, env.clock(n).skip, |spec.steps|);
  }

  /** The second half of a batch: a ready step ends with its agent's reply, in whatever order the
      replies arrive; every other step stays as the round left it. */
  lemma BatchResults(env: LocalEnv, spec: FlowSpec, s: LocalState, n: nat, i: nat)
    requires EveryResultArrives(env) && UniqueNames(spec) && Mirrors(spec, s.status.steps) && i < |spec.steps|
    ensures var t := Batch(env, spec, s, n);
            if i in t.round.ready
            then && t.bench.steps[i].startTime.Some? && t.bench.steps[i].completionTime.Some?
                 && t.bench.steps[i] == FinishStep(StartStep(t.round.steps[i], t.bench.steps[i].startTime.value),
                                                   ReplyTo(env, spec, t.data, n, i),
                                                   t.bench.steps[i].completionTime.value)
                 && t.final.status.steps[i] == ParseStep(env.engine, spec, t.bench.steps[i])
            else && t.bench.steps[i] == t.round.steps[i]
                 && (t.final.status.steps[i] == t.round.steps[i]
                     || t.final.status.steps[i] == ParseStep(env.engine, spec, t.round.steps[i]))
  {
    hide IsTruthy, ReadyUpTo, Ran, LoopsEvaluated, ReplyTo, Closed, ParseStep, DataOf, StatusByName, FlowOutput,
      TokenSum, AnyFailed, AllDone, Totals, Overdue, RepetitionDue, Rearm, FinishStep, StartStep;
    var t := Batch(env, spec, s, n);
    BatchStages(env, spec, s, n);
    if t.round.ready != [] {
      assert Permutation(env.arrivals(n, |t.round.ready|), |t.round.ready|);
      RanPointwise(env, spec, Bench(t.round.steps, s.log), t.ix, t.data, n, t.round.ready, i);
      if i in t.round.ready {
        var m: nat, j: nat :| m < |t.round.ready| && j < |t.round.ready|
          && t.bench.steps[i] == FinishStep(StartStep(t.round.steps[i], env.clock(n).start(m)),
                                            ReplyTo(env, spec, t.data, n, i), env.clock(n).done(j));
        TimesOfRun(t.round.steps[i], env.clock(n).start(m), ReplyTo(env, spec, t.data, n, i), env.clock(n).done(j));
      }
      ClosedSteps(env, spec, s.status, t.bench.steps, t.ix, n, i);
    }
  }

  lemma TimesOfRun(st: StepStatus, started: Time, reply: Reply, done: Time)
    ensures var r := FinishStep(StartStep(st, started), reply, done);
            r.startTime == Some(started) && r.completionTime == Some(done)
  {
  }

  lemma ClosedSteps(env: LocalEnv, spec: FlowSpec, st: FlowStatus, ran: seq<StepStatus>, ix: map<string, nat>, n: nat,
                    i: nat)
    requires Faithful(spec, ix) && Pointers(ix, ran) && i < |spec.steps| == |ran|
    ensures Closed(env, spec, st, ran, ix, n).steps[i] == ParseStep(env.engine, spec, ran[i])
  {
    hide IsTruthy, ParseStep, DataOf, FlowOutput, TokenSum, AnyFailed, AllDone, Totals, Overdue;
    assert spec.steps[i].name in ix && i in ix.Values;
  }

  /** Between batches nothing runs. */
  ghost predicate Settled(spec: FlowSpec, steps: seq<StepStatus>) {
    && Mirrors(spec, steps)
    && (forall i :: 0 <= i < |steps| ==> !steps[i].phase.Running?)
    && (forall i :: 0 <= i < |steps| ==> 0 <= steps[i].iterations <= EffectiveMax(spec.steps[i]))
  }

  /** What a batch does to the name, the phase and the count of step i. */
  lemma BatchStory(env: LocalEnv, spec: FlowSpec, s: LocalState, n: nat, i: nat)
    requires EveryResultArrives(env) && UniqueNames(spec) && Mirrors(spec, s.status.steps) && i < |spec.steps|
    ensures var t := Batch(env, spec, s, n);
            && t.looped[i].name == t.round.steps[i].name == t.final.status.steps[i].name == spec.steps[i].name
            && (t.looped[i] == s.status.steps[i]
                || (t.looped[i].phase.Pending? && t.looped[i].iterations == s.status.steps[i].iterations + 1
                    && s.status.steps[i].iterations < EffectiveMax(spec.steps[i])))
            && (t.round.steps[i] == t.looped[i] || (t.looped[i].phase.Pending? && t.round.steps[i].phase.Skipped?))
            && t.round.steps[i].iterations == t.final.status.steps[i].iterations == t.looped[i].iterations
            && (t.final.status.steps[i].phase == t.round.steps[i].phase
                || t.final.status.steps[i].phase.Succeeded? || t.final.status.steps[i].phase.Failed?)
  {
    hide IsTruthy, Batch, ParsedJson, HasSchema, ReplyTo, ReadyUpTo, DepsSucceeded, SkipsStep;
    var t := Batch(env, spec, s, n);
    BatchStages(env, spec, s, n);
    BatchResults(env, spec, s, n, i);
    ReadyFate(env.engine, spec, t.looped, t.ix, t.data, env.clock(n).skip, i);
  }

  lemma BatchKeepsSettled(env: LocalEnv, spec: FlowSpec, s: LocalState, n: nat)
    requires EveryResultArrives(env) && UniqueNames(spec) && Settled(spec, s.status.steps)
    ensures var t := Batch(env, spec, s, n);
            && Settled(spec, t.looped) && Settled(spec, t.round.steps) && Settled(spec, t.final.status.steps)
  {
    hide IsTruthy, Batch;
    var t := Batch(env, spec, s, n);
    forall i | 0 <= i < |spec.steps|
      ensures t.looped[i].name == t.round.steps[i].name == t.final.status.steps[i].name == spec.steps[i].name
      ensures !t.looped[i].phase.Running? && !t.round.steps[i].phase.Running? && !t.final.status.steps[i].phase.Running?
      ensures 0 <= t.looped[i].iterations <= EffectiveMax(spec.steps[i])
      ensures t.round.steps[i].iterations == t.final.status.steps[i].iterations == t.looped[i].iterations
    {
      BatchStory(env, spec, s, n, i);
    }
  }

  lemma {:induction false} RunStaysSettled(env: LocalEnv, spec: FlowSpec, n: nat)
    requires EveryResultArrives(env) && UniqueNames(spec)
    ensures Settled(spec, LocalRun(env, spec, FRESH_STATUS, n).status.steps)
  {
    hide IsTruthy, Batch;
    if n > 0 {
      RunStaysSettled(env, spec, n - 1);
      BatchKeepsSettled(env, spec, LocalRun(env, spec, FRESH_STATUS, n - 1), n - 1);
    }
  }

  // --- Does a run finish the flow? ------------------------------------------------------------

  /** Step i is listed before a step j that it depends on; both are pending when a round begins, and
      the condition of j is false. The skip of j comes too late for i. */
  ghost predicate SkipsTooLate(engine: Engine, spec: FlowSpec, before: seq<StepStatus>, data: TemplateData, i: nat,
                               j: nat)
    requires i < |spec.steps| && j < |spec.steps| == |before|
  {
    && i < j && DependsOn(spec, i, j) && before[i].phase.Pending? && before[j].phase.Pending?
    && SkipsStep(engine, spec.steps[j], data)
  }

  /** A step left pending in an empty round had a dependency that was not done at its turn. */
  lemma BlockingDependency(env: LocalEnv, spec: FlowSpec, s: LocalState, n: nat, i: nat) returns (j: nat)
    requires EveryResultArrives(env) && UniqueNames(spec) && Dag.ValidDag(spec) && Mirrors(spec, s.status.steps)
    requires var t := Batch(env, spec, s, n);
             t.round.ready == [] && i < |spec.steps| == |t.round.steps| && t.round.steps[i].phase.Pending?
    ensures j < |spec.steps| && DependsOn(spec, i, j)
    ensures var t := Batch(env, spec, s, n);
            && Faithful(spec, t.ix) && Mirrors(spec, t.looped)
            && t.round == ReadyUpTo(env.engine, spec, t.looped, t.ix, t.data, env.clock(n).skip, |spec.steps|)
            && t.looped[i].phase.Pending?
            && !ReadyUpTo(env.engine, spec, t.looped, t.ix, t.data, env.clock(n).skip, i).steps[j].phase.Done()
  {
    hide IsTruthy, Batch, ReadyUpTo, SkipsStep, Dag.Rankable, RepetitionDue, Rearm;
    var t := Batch(env, spec, s, n);
    BatchStages(env, spec, s, n);
    ReadyFate(env.engine, spec, t.looped, t.ix, t.data, env.clock(n).skip, i);
    var turn := ReadyUpTo(env.engine, spec, t.looped, t.ix, t.data, env.clock(n).skip, i);
    var d :| d in spec.steps[i].dependsOn && !DepDone(d, turn.steps, t.ix);
    assert Dag.KnownName(spec, d);
    j := t.ix[d];
  }

  lemma LateSkip(env: LocalEnv, spec: FlowSpec, s: LocalState, n: nat, i: nat, j: nat)
    requires EveryResultArrives(env) && i < |spec.steps| && j < |spec.steps| && DependsOn(spec, i, j)
    requires var t := Batch(env, spec, s, n);
             && Faithful(spec, t.ix) && Mirrors(spec, t.looped) && Settled(spec, t.round.steps)
             && !AnyFailed(t.round.steps)
             && t.round == ReadyUpTo(env.engine, spec, t.looped, t.ix, t.data, env.clock(n).skip, |spec.steps|)
             && t.looped[i].phase.Pending? && t.round.steps[i].phase.Pending? && !t.round.steps[j].phase.Pending?
             && !ReadyUpTo(env.engine, spec, t.looped, t.ix, t.data, env.clock(n).skip, i).steps[j].phase.Done()
    ensures var t := Batch(env, spec, s, n); SkipsTooLate(env.engine, spec, t.looped, t.data, i, j)
  {
    hide IsTruthy, Batch, ReadyUpTo, SkipsStep, DepsSucceeded;
    var t := Batch(env, spec, s, n);
    DepAtTurn(env.engine, spec, t.looped, t.ix, t.data, env.clock(n).skip, i, j);
    ReadyFate(env.engine, spec, t.looped, t.ix, t.data, env.clock(n).skip, j);
    assert t.round.steps[j].phase.Done();
  }

  /** A step listed before a pending dependency is still pending after the round. */
  lemma LateSkipLeavesPending(env: LocalEnv, spec: FlowSpec, s: LocalState, n: nat, i: nat, j: nat)
    requires EveryResultArrives(env) && UniqueNames(spec) && Mirrors(spec, s.status.steps)
    requires i < |spec.steps| && j < |spec.steps| == |Batch(env, spec, s, n).looped|
    requires var t := Batch(env, spec, s, n); SkipsTooLate(env.engine, spec, t.looped, t.data, i, j)
    ensures i < |Batch(env, spec, s, n).round.steps| && Batch(env, spec, s, n).round.steps[i].phase.Pending?
  {
    hide IsTruthy, Batch, ReadyUpTo, SkipsStep, DepsSucceeded, RepetitionDue, Rearm;
    var t := Batch(env, spec, s, n);
    BatchStages(env, spec, s, n);
    ReadyFate(env.engine, spec, t.looped, t.ix, t.data, env.clock(n).skip, i);
    DepAtTurn(env.engine, spec, t.looped, t.ix, t.data, env.clock(n).skip, i, j);
    var turn := ReadyUpTo(env.engine, spec, t.looped, t.ix, t.data, env.clock(n).skip, i);
    NotDoneBlocks(spec, turn.steps, t.ix, i, j);
  }

  lemma NotDoneBlocks(spec: FlowSpec, steps: seq<StepStatus>, ix: map<string, nat>, i: nat, j: nat)
    requires Faithful(spec, ix) && Pointers(ix, steps) && i < |spec.steps| && j < |spec.steps| && DependsOn(spec, i, j)
    requires j < |steps| && !steps[j].phase.Done()
    ensures !DepsSucceeded(spec.steps[i].dependsOn, steps, ix)
  {
    assert !DepDone(spec.steps[j].name, steps, ix);
  }

  /** A pending step of an empty round waits for a step that was skipped too late. */
  lemma PendingWaitsForLateSkip(env: LocalEnv, spec: FlowSpec, s: LocalState, n: nat, p: nat) returns (i: nat, j: nat)
    requires EveryResultArrives(env) && UniqueNames(spec) && Dag.ValidDag(spec) && Settled(spec, s.status.steps)
    requires var t := Batch(env, spec, s, n);
             t.round.ready == [] && !AnyFailed(t.round.steps) && p < |t.round.steps| && t.round.steps[p].phase.Pending?
    ensures i < |spec.steps| && j < |spec.steps| == |Batch(env, spec, s, n).looped|
    ensures var t := Batch(env, spec, s, n); SkipsTooLate(env.engine, spec, t.looped, t.data, i, j)
  {
    hide IsTruthy, Batch, ReadyUpTo, ReplyTo, SkipsStep;
    var t := Batch(env, spec, s, n);
    BatchKeepsSettled(env, spec, s, n);
    var rank := Dag.ValidDagRank(spec);
    i := ControllerProgress.FrontierStep(spec, rank, t.round.steps, p);
    j := BlockingDependency(env, spec, s, n, i);
    LateSkip(env, spec, s, n, i, j);
  }

  /** When a batch gives up on the flow: it finds no ready step although the flow is neither overdue nor
      over budget and nothing failed, and it skips a dependency too late. */
  ghost predicate GivesUp(env: LocalEnv, spec: FlowSpec, s: LocalState, n: nat)
    requires EveryResultArrives(env) && |s.status.steps| == |spec.steps|
  {
    var t := Batch(env, spec, s, n);
    && t.round.ready == []
    && !Overdue(spec, s.status, env.clock(n).finish) && !OverBudget(spec, t.looped) && !AnyFailed(t.looped)
    && exists i, j :: 0 <= i < |spec.steps| && 0 <= j < |spec.steps|
                      && SkipsTooLate(env.engine, spec, t.looped, t.data, i, j)
  }

  /** Exactly when a batch gives up: the run stops there with the flow unfinished if and only if the
      batch finds nothing ready and skips a step that a pending step listed earlier depends on. */
  lemma GivesUpExactlyAfterLateSkip(env: LocalEnv, spec: FlowSpec, s: LocalState, n: nat)
    requires EveryResultArrives(env) && UniqueNames(spec) && Dag.ValidDag(spec) && Settled(spec, s.status.steps)
    requires !s.status.phase.Terminal()
    ensures var r := Batch(env, spec, s, n).final;
            r.halted && !r.status.phase.Terminal() <==> GivesUp(env, spec, s, n)
  {
    hide IsTruthy, Batch, ReadyUpTo, ReplyTo, TokenSum, Deadline, SkipsStep, SkipsTooLate;
    var t := Batch(env, spec, s, n);
    BatchKeepsSettled(env, spec, s, n);
    if t.round.ready == [] {
      EmptyRoundEnds(env, spec, s, n);
      RoundKeepsCosts(env, spec, s, n);
      if !t.final.status.phase.Terminal() {
        var p :| 0 <= p < |t.round.steps| && !t.round.steps[p].phase.Done();
        var i, j := PendingWaitsForLateSkip(env, spec, s, n, p);
      }
      if i, j :| 0 <= i < |spec.steps| && 0 <= j < |spec.steps|
                 && SkipsTooLate(env.engine, spec, t.looped, t.data, i, j) {
        LateSkipLeavesPending(env, spec, s, n, i, j);
      }
    } else {
      ReadyRoundEnds(env, spec, s, n);
    }
  }

  lemma ReadyRoundEnds(env: LocalEnv, spec: FlowSpec, s: LocalState, n: nat)
    requires EveryResultArrives(env) && Batch(env, spec, s, n).round.ready != []
    ensures var r := Batch(env, spec, s, n).final; r.halted <==> r.status.phase.Terminal()
  {
    hide IsTruthy, ReadyUpTo, Ran, LoopsEvaluated, DataOf, StatusByName, Closed;
  }

  /** A round only skips steps: it neither fails one nor changes what was spent. */
  lemma RoundKeepsCosts(env: LocalEnv, spec: FlowSpec, s: LocalState, n: nat)
    requires EveryResultArrives(env) && UniqueNames(spec) && Mirrors(spec, s.status.steps)
    ensures var t := Batch(env, spec, s, n);
            AnyFailed(t.round.steps) == AnyFailed(t.looped) && TokenSum(t.round.steps) == TokenSum(t.looped)
  {
    hide IsTruthy, Batch, ReadyUpTo, DepsSucceeded, SkipsStep, RepetitionDue, Rearm, TokenSum;
    var t := Batch(env, spec, s, n);
    BatchStages(env, spec, s, n);
    forall i | 0 <= i < |spec.steps|
      ensures t.round.steps[i].tokenUsage == t.looped[i].tokenUsage
      ensures t.round.steps[i].phase.Failed? == t.looped[i].phase.Failed?
    {
      ReadyFate(env.engine, spec, t.looped, t.ix, t.data, env.clock(n).skip, i);
    }
    SameUsageSameSum(t.round.steps, t.looped);
  }

  lemma {:induction false} SameUsageSameSum(a: seq<StepStatus>, b: seq<StepStatus>)
    requires |a| == |b| && forall i :: 0 <= i < |a| ==> a[i].tokenUsage == b[i].tokenUsage
    ensures InputTokens(a) == InputTokens(b) && OutputTokens(a) == OutputTokens(b) && TokenSum(a) == TokenSum(b)
  {
    if a != [] {
      SameUsageSameSum(a[..|a| - 1], b[..|b| - 1]);
    }
  }

  lemma EmptyRoundEnds(env: LocalEnv, spec: FlowSpec, s: LocalState, n: nat)
    requires EveryResultArrives(env) && Batch(env, spec, s, n).round.ready == [] && !s.status.phase.Terminal()
    ensures var t := Batch(env, spec, s, n);
            && |t.looped| == |t.round.steps| == |s.status.steps| && t.final.halted
            && (t.final.status.phase.Terminal() <==>
                  Overdue(spec, s.status, env.clock(n).finish) || OverBudget(spec, t.round.steps)
                  || AnyFailed(t.round.steps) || AllDone(t.round.steps))
  {
    hide IsTruthy, ReadyUpTo, Ran, LoopsEvaluated, DataOf, StatusByName, FlowOutput, TokenSum, Deadline;
  }

  /** No step depends on a later-listed step that may be skipped. In particular this holds when no
      step has an `if`, and when steps are listed in dependency order. */
  predicate ConditionsListedFirst(spec: FlowSpec) {
    forall i, j :: 0 <= i < j < |spec.steps| && DependsOn(spec, i, j) ==> spec.steps[j].ifCondition == ""
  }

  /** A validated flow with unique names whose conditional steps are listed before their dependents
      always ends Succeeded or Failed. */
  lemma {:induction false} RunFinishesTheFlow(env: LocalEnv, spec: FlowSpec, n: nat)
    requires EveryResultArrives(env) && UniqueNames(spec) && Dag.ValidDag(spec) && ConditionsListedFirst(spec)
    requires LocalRun(env, spec, FRESH_STATUS, n).halted
    ensures LocalRun(env, spec, FRESH_STATUS, n).status.phase.Terminal()
    decreases n
  {
    hide IsTruthy, Batch;
    if n > 0 {
      var s := LocalRun(env, spec, FRESH_STATUS, n - 1);
      if s.halted {
        RunFinishesTheFlow(env, spec, n - 1);
      } else {
        NotHaltedNotTerminal(env, spec, n - 1);
        RunStaysSettled(env, spec, n - 1);
        BatchFinishes(env, spec, s, n - 1);
      }
    }
  }

  /** Exactly when a run leaves the flow unfinished: the batch at which it halts gives up. */
  lemma RunGivesUpExactly(env: LocalEnv, spec: FlowSpec, n: nat)
    requires EveryResultArrives(env) && UniqueNames(spec) && Dag.ValidDag(spec)
    requires !LocalRun(env, spec, FRESH_STATUS, n).halted && LocalRun(env, spec, FRESH_STATUS, n + 1).halted
    ensures |LocalRun(env, spec, FRESH_STATUS, n).status.steps| == |spec.steps|
    ensures !LocalRun(env, spec, FRESH_STATUS, n + 1).status.phase.Terminal() <==>
            GivesUp(env, spec, LocalRun(env, spec, FRESH_STATUS, n), n)
  {
    hide IsTruthy, Batch, GivesUp;
    var s := LocalRun(env, spec, FRESH_STATUS, n);
    NotHaltedNotTerminal(env, spec, n);
    RunStaysSettled(env, spec, n);
    GivesUpExactlyAfterLateSkip(env, spec, s, n);
  }

  lemma NotHaltedNotTerminal(env: LocalEnv, spec: FlowSpec, n: nat)
    requires EveryResultArrives(env) && !LocalRun(env, spec, FRESH_STATUS, n).halted
    ensures !LocalRun(env, spec, FRESH_STATUS, n).status.phase.Terminal()
  {
    hide IsTruthy, Ran, ReadyUpTo, LoopsEvaluated, DataOf, StatusByName, PhaseUpdated, Closed;
  }

  lemma BatchFinishes(env: LocalEnv, spec: FlowSpec, s: LocalState, n: nat)
    requires EveryResultArrives(env) && UniqueNames(spec) && Dag.ValidDag(spec) && ConditionsListedFirst(spec)
    requires Settled(spec, s.status.steps) && !s.status.phase.Terminal() && Batch(env, spec, s, n).final.halted
    ensures Batch(env, spec, s, n).final.status.phase.Terminal()
  {
    hide IsTruthy, Batch;
    GivesUpExactlyAfterLateSkip(env, spec, s, n);
  }
}

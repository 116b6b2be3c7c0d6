/** The in-process executor, as functions on values: batches of steps run in parallel, and their
    results arrive in any order. */
module LocalExecutor {
  import opened FlowTypes
  import opened Templates
  import opened FlowLogic

  datatype Reply = Reply(output: string, inputTokens: int, outputTokens: int, error: Option<string>)

  datatype StepEvent = StepEvent(step: string, phase: StepPhase, output: string, inputTokens: int, outputTokens: int,
                                 error: Option<string>)

  /** Clock readings of one batch: when the k-th step of the spec is skipped, when the k-th ready
      step is started, when the k-th result is received, and when the phase is updated. */
  datatype BatchClock = BatchClock(skip: nat -> Time, start: nat -> Time, done: nat -> Time, finish: Time)

  /** Everything a run does not control: `agent(n, k, prompt)` is the reply to the k-th step of the
      spec in batch n, `arrivals(n, m)` the order in which the m results of batch n arrive. */
  datatype LocalEnv = LocalEnv(
    engine: Engine,
    agent: (nat, nat, string) -> Reply,
    arrivals: (nat, nat) -> seq<nat>,
    started: Time,
    clock: nat -> BatchClock)

  /** Every result of a batch arrives exactly once. */
  ghost predicate Permutation(order: seq<nat>, n: nat) {
    && |order| == n
    && (forall k :: 0 <= k < n ==> order[k] < n)
    && (forall a, b :: 0 <= a < b < n ==> order[a] != order[b])
    && (forall m :: 0 <= m < n ==> m in order)
  }

  ghost predicate EveryResultArrives(env: LocalEnv) {
    forall n, m :: Permutation(env.arrivals(n, m), m)
  }

  // --- Collecting ready steps -----------------------------------------------------------------

  /** `ready` lists positions in the spec. */
  datatype Round = Round(steps: seq<StepStatus>, ready: seq<nat>)

  function ReadyStep(engine: Engine, spec: FlowSpec, r: Round, ix: map<string, nat>, data: TemplateData, k: nat,
                     now: Time)
    : (q: Round)
    requires k < |spec.steps| && Pointers(ix, r.steps)
    ensures Pointers(ix, q.steps) && |q.steps| == |r.steps|
  {
    var step := spec.steps[k];
    if step.name !in ix || !r.steps[ix[step.name]].phase.Pending? then r
    else if !DepsSucceeded(step.dependsOn, r.steps, ix) then r
    else if SkipsStep(engine, step, data) then
      r.(steps := r.steps[ix[step.name] := SkipStep(r.steps[ix[step.name]], now)])
    else r.(ready := r.ready + [k])
  }

  function ReadyUpTo(engine: Engine, spec: FlowSpec, steps: seq<StepStatus>, ix: map<string, nat>, data: TemplateData,
                     clock: nat -> Time, k: nat)
    : (r: Round)
    requires k <= |spec.steps| && Pointers(ix, steps)
    ensures Pointers(ix, r.steps) && |r.steps| == |steps|
    ensures forall j :: 0 <= j < |r.ready| ==> r.ready[j] < k && spec.steps[r.ready[j]].name in ix
  {
    if k == 0 then Round(steps, [])
    else ReadyStep(engine, spec, ReadyUpTo(engine, spec, steps, ix, data, clock, k - 1), ix, data, k - 1, clock(k - 1))
  }

  // --- Running a batch ------------------------------------------------------------------------

  datatype Bench = Bench(steps: seq<StepStatus>, log: seq<StepEvent>)

  function StartStep(st: StepStatus, now: Time): (r: StepStatus) {
    st.(phase := Running, startTime := Some(now))
  }

  function FinishStep(st: StepStatus, reply: Reply, now: Time): (r: StepStatus) {
    var done := st.(completionTime := Some(now));
    if reply.error.Some? then done.(phase := Failed, message := AgentError(reply.error.value))
    else done.(phase := Succeeded, output := reply.output,
               tokenUsage := Some(TokenUsage(reply.inputTokens, reply.outputTokens,
                                             reply.inputTokens + reply.outputTokens)))
  }

  function FinishEvent(name: string, reply: Reply): (e: StepEvent) {
    StepEvent(name, if reply.error.Some? then Failed else Succeeded, reply.output, reply.inputTokens,
              reply.outputTokens, reply.error)
  }

  ghost predicate Runnable(spec: FlowSpec, ix: map<string, nat>, ready: seq<nat>) {
    forall j :: 0 <= j < |ready| ==> ready[j] < |spec.steps| && spec.steps[ready[j]].name in ix
  }

  function StartOne(b: Bench, ix: map<string, nat>, name: string, now: Time): (r: Bench)
    requires Pointers(ix, b.steps) && name in ix
    ensures Pointers(ix, r.steps) && |r.steps| == |b.steps|
  {
    Bench(b.steps[ix[name] := StartStep(b.steps[ix[name]], now)], b.log + [StepEvent(name, Running, "", 0, 0, None)])
  }

  function StartedUpTo(spec: FlowSpec, b: Bench, ix: map<string, nat>, ready: seq<nat>, clock: nat -> Time, k: nat)
    : (r: Bench)
    requires Pointers(ix, b.steps) && Runnable(spec, ix, ready) && k <= |ready|
    ensures Pointers(ix, r.steps) && |r.steps| == |b.steps|
  {
    if k == 0 then b
    else
      StartOne(StartedUpTo(spec, b, ix, ready, clock, k - 1), ix, spec.steps[ready[k - 1]].name, clock(k - 1))
  }

  lemma StartedUnfolds(spec: FlowSpec, b: Bench, ix: map<string, nat>, ready: seq<nat>, clock: nat -> Time, k: nat)
    requires Pointers(ix, b.steps) && Runnable(spec, ix, ready) && k <= |ready|
    ensures k == 0 ==> StartedUpTo(spec, b, ix, ready, clock, k) == b
    ensures k > 0 ==>
              StartedUpTo(spec, b, ix, ready, clock, k) ==
              StartOne(StartedUpTo(spec, b, ix, ready, clock, k - 1), ix, spec.steps[ready[k - 1]].name, clock(k - 1))
  {
    hide StartOne;
  }

  /** The agent's reply to the step at a position of the spec. */
  function ReplyTo(env: LocalEnv, spec: FlowSpec, data: TemplateData, n: nat, pos: nat): (reply: Reply)
    requires pos < |spec.steps|
  {
    env.agent(n, pos, PromptOrEmpty(env.engine, spec.steps[pos], data))
  }

  function FinishOne(b: Bench, ix: map<string, nat>, name: string, reply: Reply, now: Time): (r: Bench)
    requires Pointers(ix, b.steps) && name in ix
    ensures Pointers(ix, r.steps) && |r.steps| == |b.steps|
  {
    Bench(b.steps[ix[name] := FinishStep(b.steps[ix[name]], reply, now)], b.log + [FinishEvent(name, reply)])
  }

  function FinishedUpTo(env: LocalEnv, spec: FlowSpec, b: Bench, ix: map<string, nat>, data: TemplateData, n: nat,
                        ready: seq<nat>, order: seq<nat>, k: nat)
    : (r: Bench)
    requires Pointers(ix, b.steps) && Runnable(spec, ix, ready) && k <= |order|
    requires forall j :: 0 <= j < |order| ==> order[j] < |ready|
    ensures Pointers(ix, r.steps) && |r.steps| == |b.steps|
  {
    if k == 0 then b
    else
      var pos := ready[order[k - 1]];
      FinishOne(FinishedUpTo(env, spec, b, ix, data, n, ready, order, k - 1), ix, spec.steps[pos].name,
                ReplyTo(env, spec, data, n, pos), env.clock(n).done(k - 1))
  }

  lemma FinishedUnfolds(env: LocalEnv, spec: FlowSpec, b: Bench, ix: map<string, nat>, data: TemplateData, n: nat,
                        ready: seq<nat>, order: seq<nat>, k: nat)
    requires Pointers(ix, b.steps) && Runnable(spec, ix, ready) && k <= |order|
    requires forall j :: 0 <= j < |order| ==> order[j] < |ready|
    ensures k == 0 ==> FinishedUpTo(env, spec, b, ix, data, n, ready, order, k) == b
    ensures k > 0 ==>
              FinishedUpTo(env, spec, b, ix, data, n, ready, order, k) ==
              FinishOne(FinishedUpTo(env, spec, b, ix, data, n, ready, order, k - 1), ix,
                        spec.steps[ready[order[k - 1]]].name, ReplyTo(env, spec, data, n, ready[order[k - 1]]),
                        env.clock(n).done(k - 1))
  {
    hide ReplyTo, FinishOne;
  }

  // --- Runs -----------------------------------------------------------------------------------

  datatype LocalState = LocalState(status: FlowStatus, log: seq<StepEvent>, halted: bool)

  datatype BatchTrace = BatchTrace(
    ix: map<string, nat>,
    data: TemplateData,
    looped: seq<StepStatus>,
    round: Round,
    bench: Bench,
    final: LocalState)

  /** The ready steps run to completion. */
  function Ran(env: LocalEnv, spec: FlowSpec, b: Bench, ix: map<string, nat>, data: TemplateData, n: nat,
               ready: seq<nat>)
    : (r: Bench)
    requires Pointers(ix, b.steps) && Runnable(spec, ix, ready)
    requires Permutation(env.arrivals(n, |ready|), |ready|)
    ensures Pointers(ix, r.steps) && |r.steps| == |b.steps|
  {
    FinishedUpTo(env, spec, StartedUpTo(spec, b, ix, ready, env.clock(n).start, |ready|), ix, data, n, ready,
                 env.arrivals(n, |ready|), |ready|)
  }

  /** The end of a batch that ran something: parse outputs, then update the phase. */
  function Closed(env: LocalEnv, spec: FlowSpec, st: FlowStatus, ran: seq<StepStatus>, ix: map<string, nat>, n: nat)
    : (r: FlowStatus)
    requires Pointers(ix, ran)
    ensures |r.steps| == |ran|
  {
    var parsed := ParseAll(env.engine, spec, ran, ix);
    PhaseUpdated(env.engine, spec, st.(steps := parsed), DataOf(env.engine, spec, parsed, ix), env.clock(n).finish)
  }

  /** Batch n of a run. Without a ready step the run stops after updating the phase. */
  function Batch(env: LocalEnv, spec: FlowSpec, s: LocalState, n: nat): (t: BatchTrace)
    requires EveryResultArrives(env)
    ensures Pointers(t.ix, t.looped) && Pointers(t.ix, t.round.steps) && Runnable(spec, t.ix, t.round.ready)
    ensures |t.looped| == |t.round.steps| == |t.bench.steps| == |t.final.status.steps| == |s.status.steps|
  {
    var ix := StatusByName(s.status.steps);
    var data := DataOf(env.engine, spec, s.status.steps, ix);
    var looped := LoopsEvaluated(env.engine, spec, s.status.steps, ix, data);
    var round := ReadyUpTo(env.engine, spec, looped, ix, data, env.clock(n).skip, |spec.steps|);
    if |round.ready| == 0 then
      BatchTrace(ix, data, looped, round, Bench(round.steps, s.log),
                 LocalState(PhaseUpdated(env.engine, spec, s.status.(steps := round.steps), data, env.clock(n).finish),
                            s.log, true))
    else
      assert Permutation(env.arrivals(n, |round.ready|), |round.ready|);
      var bench := Ran(env, spec, Bench(round.steps, s.log), ix, data, n, round.ready);
      var st := Closed(env, spec, s.status, bench.steps, ix, n);
      BatchTrace(ix, data, looped, round, bench, LocalState(st, bench.log, st.phase.Terminal()))
  }

  /** The state after at most n batches, from any initial status. */
  function LocalRun(env: LocalEnv, spec: FlowSpec, st0: FlowStatus, n: nat): (s: LocalState)
    requires EveryResultArrives(env)
  {
    if n == 0 then
      var st := Initialized(spec, st0, env.started);
      LocalState(st, [], st.phase.Terminal())
    else
      var s := LocalRun(env, spec, st0, n - 1);
      if s.halted then s else Batch(env, spec, s, n - 1).final
  }
}

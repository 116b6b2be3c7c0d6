/** The ArkFlow controller as it runs: it updates the flow object and the Redis streams in place. */
module Reconciling {
  import opened FlowTypes
  import opened Templates
  import opened FlowLogic
  import opened Controller
  import opened ArkFlows
  import ControllerRuns
  import Dag

  class Redis {
    var stream: seq<Entry>
    var results: seq<ResultMsg>
    const idOf: nat -> string

    constructor (idOf: nat -> string)
      ensures this.idOf == idOf && stream == [] && results == []
    {
      this.idOf := idOf;
      stream, results := [], [];
    }

    /** A command that fails leaves the stream alone. */
    method XAdd(entry: Entry, up: bool) returns (id: Option<string>)
      modifies this`stream
      ensures up ==> stream == old(stream) + [entry] && id == Some(idOf(old(|stream|)))
      ensures !up ==> stream == old(stream) && id.None?
    {
      if !up {
        return None;
      }
      id := Some(idOf(|stream|));
      stream := stream + [entry];
    }
  }

  /** Every in-flight task ID is waited for, by one of the records that carry it. */
  ghost predicate WaitsFor(waiting: map<string, nat>, steps: seq<StepStatus>, ix: map<string, nat>) {
    && (forall id :: id in waiting ==>
          waiting[id] in ix.Values && waiting[id] < |steps| && InFlight(steps[waiting[id]])
          && steps[waiting[id]].taskId == id)
    && (forall i :: i in ix.Values && 0 <= i < |steps| && InFlight(steps[i]) ==> steps[i].taskId in waiting)
  }

  predicate Waits(waiting: map<string, nat>, steps: seq<StepStatus>, i: nat)
    requires i < |steps|
  {
    InFlight(steps[i]) && steps[i].taskId in waiting && waiting[steps[i].taskId] == i
  }

  /** The records after the first n messages went to whoever waits for them. */
  function CollectedFor(steps: seq<StepStatus>, waiting: map<string, nat>, results: seq<ResultMsg>, clock: nat -> Time,
                        n: nat)
    : (r: seq<StepStatus>)
    requires n <= |results|
  {
    seq(|steps|, i requires 0 <= i < |steps| =>
      if Waits(waiting, steps, i) then Applied(steps[i], results, clock, 0, n) else steps[i])
  }

  predicate AnyoneWaits(steps: seq<StepStatus>, ix: map<string, nat>) {
    exists i :: i in ix.Values && 0 <= i < |steps| && InFlight(steps[i])
  }

  /** When no two in-flight records share a task ID, everyone waits for his own. */
  lemma DistinctIdsWaitAlone(steps: seq<StepStatus>, ix: map<string, nat>, waiting: map<string, nat>,
                             results: seq<ResultMsg>, clock: nat -> Time)
    requires WaitsFor(waiting, steps, ix) && DistinctTaskIds(steps)
    ensures CollectedFor(steps, waiting, results, clock, |results|) ==
            Collected(steps, ix, results, clock, 0, |results|)
  {
    hide Applied;
    forall i | 0 <= i < |steps| && InFlight(steps[i])
      ensures Waits(waiting, steps, i) <==> i in ix.Values
    {
      if i in ix.Values {
        var j := waiting[steps[i].taskId];
        assert InFlight(steps[j]) && steps[j].taskId == steps[i].taskId;
      }
    }
  }

  /** The step whose turn is k gets a task. */
  ghost predicate Launches(env: Env, spec: FlowSpec, b: Board, ix: map<string, nat>, data: TemplateData, k: nat)
    requires k < |spec.steps| && Pointers(ix, b.steps)
  {
    var step := spec.steps[k];
    && step.name in ix && b.steps[ix[step.name]].phase.Pending?
    && DepsSucceeded(step.dependsOn, b.steps, ix)
    && !SkipsStep(env.engine, step, data)
    && ResolvePrompt(env.engine, step, data).Some?
  }

  /** Enqueueing the task of step k fails in a submission round. */
  ghost predicate FailsAt(env: Env, spec: FlowSpec, b: Board, ix: map<string, nat>, data: TemplateData,
                          clock: nat -> Time, up: nat -> bool, k: nat)
    requires k < |spec.steps| && Pointers(ix, b.steps)
  {
    Launches(env, spec, SubmittedUpTo(env, spec, b, ix, data, clock, k), ix, data, k) && !up(k)
  }

  /** The first n steps of a submission round go without a failure. */
  ghost predicate Unfailing(env: Env, spec: FlowSpec, b: Board, ix: map<string, nat>, data: TemplateData,
                            clock: nat -> Time, up: nat -> bool, n: nat)
    requires n <= |spec.steps| && Pointers(ix, b.steps)
  {
    forall k :: 0 <= k < n ==> !FailsAt(env, spec, b, ix, data, clock, up, k)
  }

  /** Where a submission round stops: at the first task that cannot be enqueued, if any. */
  ghost predicate StopsAt(env: Env, spec: FlowSpec, b: Board, ix: map<string, nat>, data: TemplateData,
                          clock: nat -> Time, up: nat -> bool, failedAt: Option<nat>)
    requires Pointers(ix, b.steps)
  {
    match failedAt
    case None => Unfailing(env, spec, b, ix, data, clock, up, |spec.steps|)
    case Some(k) =>
      && k < |spec.steps| && Unfailing(env, spec, b, ix, data, clock, up, k)
      && FailsAt(env, spec, b, ix, data, clock, up, k)
  }

  lemma TurnOfStep(env: Env, spec: FlowSpec, b: Board, ix: map<string, nat>, data: TemplateData,
                   clock: nat -> Time, up: nat -> bool, k: nat)
    requires k < |spec.steps| && Pointers(ix, b.steps)
    ensures var turn := SubmittedUpTo(env, spec, b, ix, data, clock, k);
            && SubmittedUpTo(env, spec, b, ix, data, clock, k + 1) ==
               SubmitStep(env, spec, turn, ix, data, k, clock(k))
            && (FailsAt(env, spec, b, ix, data, clock, up, k) <==> Launches(env, spec, turn, ix, data, k) && !up(k))
    ensures Unfailing(env, spec, b, ix, data, clock, up, k + 1) <==>
            Unfailing(env, spec, b, ix, data, clock, up, k) && !FailsAt(env, spec, b, ix, data, clock, up, k)
  {
    ControllerRuns.SubmittedUnfolds(env, spec, b, ix, data, clock, k);
    hide SubmittedUpTo, SubmitStep, Launches;
  }

  lemma NothingFailedYet(env: Env, spec: FlowSpec, b: Board, ix: map<string, nat>, data: TemplateData,
                         clock: nat -> Time, up: nat -> bool)
    requires Pointers(ix, b.steps)
    ensures Unfailing(env, spec, b, ix, data, clock, up, 0) && SubmittedUpTo(env, spec, b, ix, data, clock, 0) == b
  {
  }

  class Reconciler {
    const env: Env

    constructor (env: Env)
      ensures this.env == env
    {
      this.env := env;
    }

    /** When in-flight records share a task ID, the last one that Go visits in the status map waits. */
    method Waiting(steps: seq<StepStatus>, ix: map<string, nat>) returns (waiting: map<string, nat>)
      requires Pointers(ix, steps)
      ensures WaitsFor(waiting, steps, ix)
    {
      waiting := map[];
      var todo := ix.Keys;
      while todo != {}
        invariant todo <= ix.Keys
        invariant forall id :: id in waiting ==>
                    waiting[id] in ix.Values && waiting[id] < |steps|
                    && InFlight(steps[waiting[id]]) && steps[waiting[id]].taskId == id
        invariant forall n :: n in ix && n !in todo && InFlight(steps[ix[n]]) ==> steps[ix[n]].taskId in waiting
      {
        var name :| name in todo;
        todo := todo - {name};
        assert ix[name] in ix.Values;
        if InFlight(steps[ix[name]]) {
          waiting := waiting[steps[ix[name]].taskId := ix[name]];
        }
      }
      forall i | i in ix.Values && InFlight(steps[i]) ensures steps[i].taskId in waiting {
        var n :| n in ix && ix[n] == i;
      }
    }

    /** Scans the whole results stream: every message goes to the record that waits for its task. With
        distinct task IDs these are all the in-flight records, and Go's visiting order does not matter.
        `readable` says whether reading the stream succeeds; it is not read when nobody waits. */
    method CollectResults(f: ArkFlow, redis: Redis, ix: map<string, nat>, clock: nat -> Time, readable: bool)
      returns (ok: bool)
      requires Pointers(ix, f.status.steps)
      modifies f
      ensures ok <==> readable || !AnyoneWaits(old(f.status.steps), ix)
      ensures !ok ==> f.status == old(f.status)
      ensures ok ==>
                exists waiting ::
                  && WaitsFor(waiting, old(f.status.steps), ix)
                  && f.status == old(f.status).(
                       steps := CollectedFor(old(f.status.steps), waiting, redis.results, clock, |redis.results|))
      ensures ok && DistinctTaskIds(old(f.status.steps)) ==>
                f.status == old(f.status).(
                  steps := Collected(old(f.status.steps), ix, redis.results, clock, 0, |redis.results|))
    {
      ok := true;
      ghost var before := f.status.steps;
      var waiting := Waiting(f.status.steps, ix);
      SomeoneIsWaitedFor(before, ix, waiting);
      hide Applied, DistinctTaskIds, WaitsFor, CollectedFor, Collected, AnyoneWaits;
      if DistinctTaskIds(before) {
        DistinctIdsWaitAlone(before, ix, waiting, redis.results, clock);
      }
      var msgs := redis.results;
      if waiting == map[] {
        NobodyWaits(before, msgs, clock);
        return;
      }
      if !readable {
        return false;
      }
      HandOut(f, msgs, ix, waiting, clock);
    }

    /** Goes through the messages and completes the records that wait for them. */
    method HandOut(f: ArkFlow, msgs: seq<ResultMsg>, ghost ix: map<string, nat>, waiting: map<string, nat>,
                   clock: nat -> Time)
      requires WaitsFor(waiting, f.status.steps, ix)
      modifies f
      ensures f.status == old(f.status).(
                steps := CollectedFor(old(f.status.steps), waiting, msgs, clock, |msgs|))
    {
      hide WaitsFor, CollectedFor;
      ghost var before := f.status.steps;
      NothingCollectedYet(before, waiting, msgs, clock);
      for k := 0 to |msgs|
        invariant f.status == old(f.status).(steps := f.status.steps)
        invariant f.status.steps == CollectedFor(before, waiting, msgs, clock, k)
      {
        var msg := msgs[k];
        CollectOneMore(before, ix, msgs, clock, k, waiting);
        if msg.taskId in waiting {
          var i := waiting[msg.taskId];
          var st := f.status.steps[i];
          st := st.(phase := Succeeded, output := msg.result, completionTime := Some(clock(k)));
          if msg.inputTokens > 0 || msg.outputTokens > 0 {
            st := st.(tokenUsage := Some(TokenUsage(msg.inputTokens, msg.outputTokens,
                                                    msg.inputTokens + msg.outputTokens)));
          }
          f.status := f.status.(steps := f.status.steps[i := st]);
        }
      }
    }

    static lemma SomeoneIsWaitedFor(steps: seq<StepStatus>, ix: map<string, nat>, waiting: map<string, nat>)
      requires WaitsFor(waiting, steps, ix)
      ensures AnyoneWaits(steps, ix) <==> waiting != map[]
    {
      if waiting != map[] {
        var id :| id in waiting;
        assert waiting[id] in ix.Values && InFlight(steps[waiting[id]]);
      }
    }

    static lemma NobodyWaits(before: seq<StepStatus>, msgs: seq<ResultMsg>, clock: nat -> Time)
      ensures CollectedFor(before, map[], msgs, clock, |msgs|) == before
    {
    }

    static lemma NothingCollectedYet(before: seq<StepStatus>, waiting: map<string, nat>, msgs: seq<ResultMsg>,
                                     clock: nat -> Time)
      ensures CollectedFor(before, waiting, msgs, clock, 0) == before
    {
    }

    static lemma CollectOneMore(before: seq<StepStatus>, ix: map<string, nat>, msgs: seq<ResultMsg>, clock: nat -> Time,
                         k: nat, waiting: map<string, nat>)
      requires k < |msgs| && WaitsFor(waiting, before, ix)
      ensures var now := CollectedFor(before, waiting, msgs, clock, k);
              && |now| == |before|
              && (msgs[k].taskId in waiting ==> waiting[msgs[k].taskId] < |before|)
              && CollectedFor(before, waiting, msgs, clock, k + 1) ==
                 if msgs[k].taskId in waiting
                 then now[waiting[msgs[k].taskId] := Complete(now[waiting[msgs[k].taskId]], msgs[k], clock(k))]
                 else now
    {
    }

    /** Enqueues a task for every step whose dependencies are done; `up(k)` says whether enqueueing the
        task of step k succeeds. The round ends early at the first task that cannot be enqueued. */
    method SubmitPendingSteps(f: ArkFlow, redis: Redis, ix: map<string, nat>, data: TemplateData, clock: nat -> Time,
                              up: nat -> bool)
      returns (failedAt: Option<nat>)
      requires Pointers(ix, f.status.steps) && redis.idOf == env.idOf
      modifies f, redis`stream
      ensures StopsAt(env, f.spec, Board(old(f.status.steps), old(redis.stream)), ix, data, clock, up, failedAt)
      ensures var n := if failedAt.Some? then failedAt.value else |f.spec.steps|;
              n <= |f.spec.steps| &&
              var b := SubmittedUpTo(env, f.spec, Board(old(f.status.steps), old(redis.stream)), ix, data, clock, n);
              f.status == old(f.status).(steps := b.steps) && redis.stream == b.stream
    {
      ghost var b0 := Board(f.status.steps, redis.stream);
      hide SubmitStep, SubmittedUpTo, Launches, FailsAt, Unfailing;
      NothingFailedYet(env, f.spec, b0, ix, data, clock, up);
      for k := 0 to |f.spec.steps|
        invariant f.status == old(f.status).(steps := f.status.steps)
        invariant Pointers(ix, f.status.steps)
        invariant Board(f.status.steps, redis.stream) == SubmittedUpTo(env, f.spec, b0, ix, data, clock, k)
        invariant Unfailing(env, f.spec, b0, ix, data, clock, up, k)
      {
        TurnOfStep(env, f.spec, b0, ix, data, clock, up, k);
        var ok := SubmitOne(f, redis, k, ix, data, clock(k), up(k));
        if !ok {
          return Some(k);
        }
      }
      return None;
    }

    method SubmitOne(f: ArkFlow, redis: Redis, k: nat, ix: map<string, nat>, data: TemplateData, now: Time, up: bool)
      returns (ok: bool)
      requires k < |f.spec.steps| && Pointers(ix, f.status.steps) && redis.idOf == env.idOf
      modifies f, redis`stream
      ensures f.status == old(f.status).(steps := f.status.steps)
      ensures ok <==> up || !Launches(env, f.spec, Board(old(f.status.steps), old(redis.stream)), ix, data, k)
      ensures Board(f.status.steps, redis.stream) ==
              var b := Board(old(f.status.steps), old(redis.stream));
              if ok then SubmitStep(env, f.spec, b, ix, data, k, now) else b
    {
      ok := true;
      hide IsTruthy, ResolvePrompt;
      var step := f.spec.steps[k];
      if step.name !in ix || !f.status.steps[ix[step.name]].phase.Pending? {
        return;
      }
      if !DepsSucceeded(step.dependsOn, f.status.steps, ix) {
        return;
      }
      var i := ix[step.name];
      var st := f.status.steps[i];
      if step.ifCondition != "" {
        var condResult := env.engine.resolve(step.ifCondition, data);
        if condResult.None? || !IsTruthy(condResult.value) {
          st := st.(phase := Skipped, completionTime := Some(now), message := SkippedByCondition);
          f.status := f.status.(steps := f.status.steps[i := st]);
          return;
        }
      }
      var prompt := ResolvePrompt(env.engine, step, data);
      if prompt.None? {
        st := st.(phase := Failed, completionTime := Some(now), message := InputTemplateError);
        f.status := f.status.(steps := f.status.steps[i := st]);
        return;
      }
      var taskId := redis.XAdd(FlowTask(i, st.iterations, prompt.value, env.streamKey), up);
      if taskId.None? {
        return false;
      }
      st := st.(phase := Running, taskId := taskId.value, startTime := Some(now));
      f.status := f.status.(steps := f.status.steps[i := st]);
    }

    /** One reconcile of the flow. `failedAt` is the step whose task could not be enqueued; the records
        are then stored as they are, and the flow's phase is not updated. `unread` says that the results
        could not be read; then nothing is stored. */
    method Reconcile(f: ArkFlow, redis: Redis, gate: Gate, clk: PassClock, readable: bool, up: nat -> bool)
      returns (requeue: bool, unread: bool, failedAt: Option<nat>)
      requires DistinctTaskIds(f.status.steps) && redis.idOf == env.idOf
      modifies f, redis`stream
      ensures unread ==>
                f.status == old(f.status) && redis.stream == old(redis.stream) && !requeue && failedAt.None?
      ensures Opens(f.spec, old(f.status), gate) ==>
                var t := Pass(env, f.spec, old(f.status), old(redis.stream), redis.results, 0, clk);
                unread <==> !readable && AnyoneWaits(t.init.steps, t.ix)
      ensures Opens(f.spec, old(f.status), gate) && !unread ==>
                var t := Pass(env, f.spec, old(f.status), old(redis.stream), redis.results, 0, clk);
                && StopsAt(env, f.spec, Board(t.looped, old(redis.stream)), t.ix, t.data, clk.submit, up, failedAt)
                && (failedAt.None? ==>
                      && f.status == t.final && redis.stream == t.board.stream
                      && (requeue <==> t.final.phase.FlowRunning?))
                && (failedAt.Some? ==>
                      var q := Interrupted(env, f.spec, t, old(redis.stream), clk, failedAt.value);
                      f.status == q.0 && redis.stream == q.1 && !requeue)
      ensures !Opens(f.spec, old(f.status), gate) ==>
                && f.status == TurnedAway(f.spec, old(f.status), gate) && redis.stream == old(redis.stream)
                && !requeue && !unread && failedAt.None?
    {
      requeue, unread, failedAt := false, false, None;
      if gate.isTemplate {
        return;
      }
      var err, _, _ := Dag.ValidateDAG(f.spec);
      if err.Some? {
        f.status := f.status.(ready := Some(InvalidDag));
        return;
      }
      if !gate.agentsExist {
        f.status := f.status.(ready := Some(DeploymentNotFound));
        return;
      }
      if f.status.phase.Terminal() {
        return;
      }
      if !gate.hasRedis {
        f.status := f.status.(ready := Some(NoTaskQueue));
        return;
      }
      unread, failedAt := RunPass(f, redis, clk, readable, up);
      requeue := !unread && failedAt.None? && f.status.phase.FlowRunning?;
    }

    method RunPass(f: ArkFlow, redis: Redis, clk: PassClock, readable: bool, up: nat -> bool)
      returns (unread: bool, failedAt: Option<nat>)
      requires DistinctTaskIds(f.status.steps) && redis.idOf == env.idOf
      modifies f, redis`stream
      ensures var t := Pass(env, f.spec, old(f.status), old(redis.stream), redis.results, 0, clk);
              unread <==> !readable && AnyoneWaits(t.init.steps, t.ix)
      ensures unread ==> f.status == old(f.status) && redis.stream == old(redis.stream) && failedAt.None?
      ensures !unread ==>
              var t := Pass(env, f.spec, old(f.status), old(redis.stream), redis.results, 0, clk);
              && StopsAt(env, f.spec, Board(t.looped, old(redis.stream)), t.ix, t.data, clk.submit, up, failedAt)
              && (failedAt.None? ==> f.status == t.final && redis.stream == t.board.stream)
              && (failedAt.Some? ==>
                    var q := Interrupted(env, f.spec, t, old(redis.stream), clk, failedAt.value);
                    f.status == q.0 && redis.stream == q.1)
    {
      hide StopsAt, AnyoneWaits;
      unread, failedAt := false, None;
      var stored := f.status;
      ghost var t := Pass(env, f.spec, f.status, redis.stream, redis.results, 0, clk);
      f.InitializeSteps(clk.start);
      var ix := f.BuildStatusByName();
      var ok := CollectResults(f, redis, ix, clk.collect, readable);
      if !ok {
        f.status := stored; // what was changed in memory is not written back
        unread := true;
        return;
      }
      assert f.status == t.init.(steps := t.collected);
      f.ParseOutputJson(env.engine, ix);
      var data := f.BuildTemplateData(env.engine, ix);
      assert f.status == t.init.(steps := t.parsed) && data == t.data;
      f.EvaluateLoops(env.engine, ix, data);
      assert f.status == t.init.(steps := t.looped);
      failedAt := SubmitPendingSteps(f, redis, ix, data, clk.submit, up);
      if failedAt.Some? {
        return;
      }
      assert f.status == t.init.(steps := t.board.steps);
      f.UpdateFlowPhase(env.engine, data, clk.finish);
    }
  }
}

/** Safety of the controller over all runs: which results reach which steps, how often tasks are
    submitted, in what order steps may run, and what a finished flow means. */
module ControllerSafety {
  import opened FlowTypes
  import opened Templates
  import opened FlowLogic
  import opened StepMeaning
  import opened Controller
  import opened ControllerRuns

  /** Step i names step j among its dependencies. */
  predicate DependsOn(spec: FlowSpec, i: nat, j: nat)
    requires i < |spec.steps| && j < |spec.steps|
  {
    spec.steps[j].name in spec.steps[i].dependsOn
  }

  ghost function PassOf(env: Env, spec: FlowSpec, s: Sys, clk: PassClock): (t: PassTrace) {
    Pass(env, spec, s.status, s.stream, s.results, 0, clk)
  }

  // --- Results and iterations -----------------------------------------------------------------

  /** What the controller needs of its task IDs holds in every reachable state. */
  lemma RunningIdsAreDistinct(env: Env, spec: FlowSpec, events: seq<Event>)
    requires UniqueNames(spec) && FreshIds(env) && LegalRun(env, spec, events)
    ensures DistinctTaskIds(Run(env, spec, events).status.steps)
  {
    RunInvariant(env, spec, events);
    var s := Run(env, spec, events);
    var steps := s.status.steps;
    forall i, j | 0 <= i < j < |steps| && InFlight(steps[i]) && InFlight(steps[j])
      ensures steps[i].taskId != steps[j].taskId
    {
      TaskIdsAreDistinct(env, s.stream, i, steps[i], j, steps[j]);
    }
  }

  /** A result is applied only to the step and the iteration that issued its task, and every other
      record is left alone. */
  lemma ResultReachesItsIteration(env: Env, spec: FlowSpec, events: seq<Event>, clk: PassClock, i: nat)
    requires UniqueNames(spec) && FreshIds(env) && LegalRun(env, spec, events)
    requires var s := Run(env, spec, events);
             Monotone(clk, s.clock) && !s.status.phase.Unset? && i < |s.status.steps|
    ensures |PassOf(env, spec, Run(env, spec, events), clk).collected| == |Run(env, spec, events).status.steps|
    ensures var s := Run(env, spec, events);
            var st := s.status.steps[i];
            var r := PassOf(env, spec, s, clk).collected[i];
            if r == st
            then st.phase.Running? ==> forall k :: 0 <= k < |s.results| ==> s.results[k].taskId != st.taskId
            else exists k, p :: 0 <= k < |s.results| && 0 <= p < |s.stream| && s.results[k].taskId == env.idOf(p)
                                && IssuedAt(env, s.stream, i, st, p) && CompletedBy(st, r, s.results[k], clk.collect(k))
  {
    hide IsTruthy, Pass, StepsOk, LegalRun, Run, Submissions;
    var s := Run(env, spec, events);
    RunInvariant(env, spec, events);
    StatusMirrors(env, spec, s);
    CollectedInPass(env, spec, s, clk, i);
    var st := s.status.steps[i];
    StepOfState(env, spec, s, i);
    if st.phase.Running? {
      AppliedOutcome(st, s.results, clk.collect, 0, |s.results|);
      var p :| 0 <= p < |s.stream| && IssuedAt(env, s.stream, i, st, p);
      var r := PassOf(env, spec, s, clk).collected[i];
      if r != st {
        var k :| 0 <= k < |s.results| && CompletedBy(st, r, s.results[k], clk.collect(k));
        assert s.results[k].taskId == env.idOf(p);
      }
    }
  }

  lemma StepOfState(env: Env, spec: FlowSpec, s: Sys, i: nat)
    requires StatusOk(env, spec, s) && !s.status.phase.Unset? && i < |spec.steps|
    ensures |s.status.steps| == |spec.steps|
    ensures RecordOk(spec.steps[i], s.status.steps[i], s.clock) && LedgerOk(env, s.stream, i, s.status.steps[i])
  {
  }

  lemma CollectedInPass(env: Env, spec: FlowSpec, s: Sys, clk: PassClock, i: nat)
    requires UniqueNames(spec) && StatusOk(env, spec, s) && !s.status.phase.Unset? && i < |spec.steps|
    ensures PassOf(env, spec, s, clk).init == s.status
    ensures |PassOf(env, spec, s, clk).collected| == |s.status.steps| == |spec.steps|
    ensures PassOf(env, spec, s, clk).collected[i] ==
            CollectStep(s.status.steps[i], s.results, clk.collect, 0, |s.results|)
  {
    hide IsTruthy, SubmittedUpTo, PhaseUpdated, ParseAll, LoopsEvaluated, DataOf, StatusByName, StepsOk, CollectStep;
    StatusMirrors(env, spec, s);
    PassPointwise(env, spec, s.status, s.stream, s.results, 0, clk);
  }

  lemma {:induction false} HistoryGrows(env: Env, spec: FlowSpec, events: seq<Event>, later: seq<Event>)
    requires UniqueNames(spec) && FreshIds(env) && LegalRun(env, spec, events + later)
    ensures LegalRun(env, spec, events)
    ensures Run(env, spec, events).results <= Run(env, spec, events + later).results
    ensures Run(env, spec, events).scanned <= Run(env, spec, events + later).scanned
    decreases |later|
  {
    hide IsTruthy, Pass;
    if later == [] {
      assert events + later == events;
    } else {
      var before := later[..|later| - 1];
      assert (events + later)[..|events + later| - 1] == events + before;
      HistoryGrows(env, spec, events, before);
      RunInvariant(env, spec, events + before);
    }
  }

  /** A result that a pass has seen is never applied to anything afterwards: no step that runs in
      any later state waits for it. */
  lemma SeenResultsAreSpent(env: Env, spec: FlowSpec, events: seq<Event>, gate: Gate, clk: PassClock, later: seq<Event>,
                            k: nat, i: nat)
    requires UniqueNames(spec) && FreshIds(env)
    requires LegalRun(env, spec, events + [Reconcile(gate, clk)] + later)
    requires Opens(spec, Run(env, spec, events).status, gate)
    requires k < |Run(env, spec, events).results|
    ensures k < |Run(env, spec, events + [Reconcile(gate, clk)] + later).results|
    ensures var s := Run(env, spec, events + [Reconcile(gate, clk)] + later);
            i < |s.status.steps| && s.status.steps[i].phase.Running? ==>
              s.status.steps[i].taskId != Run(env, spec, events).results[k].taskId
  {
    hide IsTruthy, Pass, StatusOk;
    var upto := events + [Reconcile(gate, clk)];
    HistoryGrows(env, spec, upto, later);
    RunInvariant(env, spec, upto + later);
    assert upto[..|upto| - 1] == events;
    assert Run(env, spec, upto).results == Run(env, spec, events).results;
    assert Run(env, spec, upto).scanned == |Run(env, spec, events).results|;
    var s := Run(env, spec, upto + later);
    assert s.results[k] == Run(env, spec, events).results[k];
  }

  lemma {:induction false} ApplyFromCursor(st: StepStatus, results: seq<ResultMsg>, clock: nat -> Time, lo: nat,
                                           hi: nat)
    requires lo <= |results| && hi <= |results|
    requires forall k :: 0 <= k < lo ==> results[k].taskId != st.taskId
    ensures Applied(st, results, clock, 0, hi) == Applied(st, results, clock, lo, hi)
    decreases hi
  {
    if hi > 0 {
      ApplyFromCursor(st, results, clock, lo, hi - 1);
    }
  }

  /** Scanning the whole results stream in every pass has the effect of reading each message once. */
  lemma RescanIsRedundant(env: Env, spec: FlowSpec, s: Sys, clk: PassClock)
    requires Inv(env, spec, s)
    ensures Pass(env, spec, s.status, s.stream, s.results, 0, clk) ==
            Pass(env, spec, s.status, s.stream, s.results, s.scanned, clk)
  {
    hide IsTruthy, SubmittedUpTo, PhaseUpdated, ParseAll, LoopsEvaluated, DataOf, StatusByName, StepsOk;
    var steps := Initialized(spec, s.status, clk.start).steps;
    var ix := StatusByName(steps);
    var n := |s.results|;
    forall i | 0 <= i < |steps|
      ensures CollectStep(steps[i], s.results, clk.collect, 0, n) ==
              CollectStep(steps[i], s.results, clk.collect, s.scanned, n)
    {
      if InFlight(steps[i]) {
        ApplyFromCursor(steps[i], s.results, clk.collect, s.scanned, n);
      }
    }
    assert Collected(steps, ix, s.results, clk.collect, 0, n) ==
           Collected(steps, ix, s.results, clk.collect, s.scanned, n);
  }

  /** The controller with a cursor into the results stream. */
  ghost function CursorNext(env: Env, spec: FlowSpec, s: Sys, e: Event): (r: Sys) {
    match e
    case Reconcile(gate, clk) =>
      if Opens(spec, s.status, gate) && s.scanned <= |s.results| then
        var t := Pass(env, spec, s.status, s.stream, s.results, s.scanned, clk);
        Sys(t.final, t.board.stream, s.results, |s.results|, clk.finish)
      else Next(env, spec, s, e)
    case EnqueueFails(gate, clk, k) =>
      if Opens(spec, s.status, gate) && s.scanned <= |s.results|
      then CutShort(env, spec, s, Pass(env, spec, s.status, s.stream, s.results, s.scanned, clk), clk, k)
      else Next(env, spec, s, e)
    case _ => Next(env, spec, s, e)
  }

  ghost function CursorRun(env: Env, spec: FlowSpec, events: seq<Event>): (s: Sys) {
    if events == [] then BOOT
    else CursorNext(env, spec, CursorRun(env, spec, events[..|events| - 1]), events[|events| - 1])
  }

  lemma {:induction false} ConsumingOnceIsTheSame(env: Env, spec: FlowSpec, events: seq<Event>)
    requires UniqueNames(spec) && FreshIds(env) && LegalRun(env, spec, events)
    ensures CursorRun(env, spec, events) == Run(env, spec, events)
  {
    hide IsTruthy, Pass, StatusOk, CutShort;
    if events != [] {
      var before := events[..|events| - 1];
      ConsumingOnceIsTheSame(env, spec, before);
      RunInvariant(env, spec, before);
      match events[|events| - 1]
      case Reconcile(gate, clk) => RescanIsRedundant(env, spec, Run(env, spec, before), clk);
      case EnqueueFails(gate, clk, k) => RescanIsRedundant(env, spec, Run(env, spec, before), clk);
      case _ =>
    }
  }

  // --- Submission accounting ------------------------------------------------------------------

  /** The stream holds exactly one task for each iteration a step has begun, in order; a step has
      at most one more task than its loop allows repetitions. */
  lemma SubmissionAccounting(env: Env, spec: FlowSpec, events: seq<Event>, i: nat)
    requires UniqueNames(spec) && FreshIds(env) && LegalRun(env, spec, events) && i < |spec.steps|
    requires !Run(env, spec, events).status.phase.Unset?
    ensures var s := Run(env, spec, events);
            && |s.status.steps| == |spec.steps| && Sent(s.status.steps[i]) >= 0
            && Submissions(s.stream, i) == UpTo(Sent(s.status.steps[i]))
            && |Submissions(s.stream, i)| <= Repetitions(spec.steps[i]) + 1
            && s.status.steps[i].iterations <= Repetitions(spec.steps[i])
  {
    RunInvariant(env, spec, events);
    RepetitionsIsCap(spec.steps[i]);
    StepOfState(env, spec, Run(env, spec, events), i);
  }

  /** A step reported as completed has both times, in order, so its duration is defined. */
  lemma CompletedStepHasDuration(env: Env, spec: FlowSpec, events: seq<Event>, i: nat)
    requires UniqueNames(spec) && FreshIds(env) && LegalRun(env, spec, events)
    requires i < |Run(env, spec, events).status.steps| && Run(env, spec, events).status.steps[i].phase.Succeeded?
    ensures var st := Run(env, spec, events).status.steps[i];
            st.startTime.Some? && st.completionTime.Some? && st.completionTime.value - st.startTime.value >= 0
  {
    RunInvariant(env, spec, events);
  }

  // --- What a pass may do to a record ---------------------------------------------------------

  /** One pass moves a record forward: a settled failure or skip stays as it is, a success is only
      taken back by beginning the next iteration, and one pass begins at most one. */
  ghost predicate Advances(a: StepStatus, b: StepStatus) {
    && (a.phase.Failed? || a.phase.Skipped? ==> b == a)
    && a.iterations <= b.iterations <= a.iterations + 1
    && (b.iterations > a.iterations ==> (a.phase.Running? || a.phase.Succeeded?) && !b.phase.Succeeded?)
    && (b.iterations == a.iterations ==>
          match a.phase
          case Pending => !b.phase.Succeeded?
          case Running => b == a || b.phase.Succeeded?
          case _ => b.(outputJson := a.outputJson) == a)
  }

  /** Whatever submission makes of a record after the loops, the record has advanced. */
  lemma StagesAdvance(env: Env, spec: FlowSpec, s: Sys, clk: PassClock, i: nat, r: StepStatus)
    requires UniqueNames(spec) && FreshIds(env) && Inv(env, spec, s) && Monotone(clk, s.clock)
    requires i < |spec.steps| == |PassOf(env, spec, s, clk).looped| && !s.status.phase.Unset?
    requires Submitted(PassOf(env, spec, s, clk).looped[i], r, clk.submit(i))
    ensures |s.status.steps| == |spec.steps| && Advances(s.status.steps[i], r)
  {
    hide IsTruthy, Pass, StatusOk, ParsedJson, HasSchema, CollectStep, RepetitionDue;
    var t := PassOf(env, spec, s, clk);
    PassStory(env, spec, s, clk, i);
    StepOfState(env, spec, s, i);
    CollectAdvances(s.status.steps[i], s.results, clk.collect);
    if RepetitionDue(env.engine, spec.steps[i], t.parsed[i], t.data) {
      DueHasSucceeded(env.engine, spec.steps[i], t.parsed[i], t.data);
    }
  }

  lemma PassAdvances(env: Env, spec: FlowSpec, s: Sys, clk: PassClock, i: nat)
    requires UniqueNames(spec) && FreshIds(env) && Inv(env, spec, s) && Monotone(clk, s.clock)
    requires i < |spec.steps| && !s.status.phase.Unset?
    ensures |PassOf(env, spec, s, clk).final.steps| == |s.status.steps| == |spec.steps|
    ensures Advances(s.status.steps[i], PassOf(env, spec, s, clk).final.steps[i])
  {
    hide IsTruthy, Pass, StatusOk, Advances;
    PassStory(env, spec, s, clk, i);
    StagesAdvance(env, spec, s, clk, i, PassOf(env, spec, s, clk).final.steps[i]);
  }

  /** Over any run: a failed or skipped record is the same in every later state, and iterations never
      decrease. */
  lemma {:induction false} RecordsOnlyAdvance(env: Env, spec: FlowSpec, events: seq<Event>, later: seq<Event>, i: nat)
    requires UniqueNames(spec) && FreshIds(env) && LegalRun(env, spec, events + later)
    requires !Run(env, spec, events).status.phase.Unset? && i < |spec.steps|
    ensures var s, t := Run(env, spec, events), Run(env, spec, events + later);
            && !t.status.phase.Unset? && |s.status.steps| == |t.status.steps| == |spec.steps|
            && s.status.steps[i].iterations <= t.status.steps[i].iterations
            && (s.status.steps[i].phase.Failed? || s.status.steps[i].phase.Skipped? ==>
                  t.status.steps[i] == s.status.steps[i])
    decreases |later|
  {
    hide IsTruthy, Pass, StepsOk, Opens;
    if later == [] {
      assert events + later == events;
      RunInvariant(env, spec, events);
      StepOfState(env, spec, Run(env, spec, events), i);
    } else {
      var more := later[..|later| - 1];
      var before := events + more;
      assert (events + later)[..|events + later| - 1] == before;
      RecordsOnlyAdvance(env, spec, events, more, i);
      RunInvariant(env, spec, before);
      match (events + later)[|events + later| - 1]
      case Reconcile(gate, clk) =>
        var s := Run(env, spec, before);
        if Opens(spec, s.status, gate) {
          OpensWhenNotTerminal(spec, s.status, gate);
          PassAdvances(env, spec, s, clk, i);
          PhaseAfterPass(env, spec, s, 0, clk);
        }
      case EnqueueFails(gate, clk, k) =>
        var s := Run(env, spec, before);
        if Opens(spec, s.status, gate) {
          OpensWhenNotTerminal(spec, s.status, gate);
          InterruptedStory(env, spec, s, clk, k);
          PassAdvances(env, spec, s, clk, i);
          StagesAdvance(env, spec, s, clk, i, PassOf(env, spec, s, clk).looped[i]);
          StartOfPass(env, spec, s, clk);
        }
      case _ =>
    }
  }

  lemma DueHasSucceeded(engine: Engine, step: Step, st: StepStatus, data: TemplateData)
    requires RepetitionDue(engine, step, st, data)
    ensures st.phase.Succeeded? && step.loop.Some? && st.iterations < EffectiveMax(step)
  {
  }

  lemma CollectAdvances(st: StepStatus, results: seq<ResultMsg>, clock: nat -> Time)
    ensures var r := CollectStep(st, results, clock, 0, |results|);
            r == st || (st.phase.Running? && r.phase.Succeeded? && r.iterations == st.iterations)
  {
    if st.phase.Running? {
      AppliedOutcome(st, results, clock, 0, |results|);
    }
  }

  // --- Order of execution ---------------------------------------------------------------------

  lemma LeavesWithDepsDone(env: Env, spec: FlowSpec, s: Sys, clk: PassClock, i: nat)
    requires UniqueNames(spec) && StatusOk(env, spec, s) && i < |spec.steps|
    requires |PassOf(env, spec, s, clk).looped| == |PassOf(env, spec, s, clk).final.steps| == |spec.steps|
    requires PassOf(env, spec, s, clk).looped[i] != PassOf(env, spec, s, clk).final.steps[i]
    ensures var t := PassOf(env, spec, s, clk);
            Faithful(spec, t.ix) && DepsSucceeded(spec.steps[i].dependsOn, t.board.steps, t.ix)
  {
    hide IsTruthy, SubmittedUpTo, PhaseUpdated, StepsOk, DataOf, StatusByName, Collected, ParseAll, LoopsEvaluated,
      Submissions, ParseStep, CollectStep, RepetitionDue, Rearm, DepsSucceeded;
    var t := PassOf(env, spec, s, clk);
    StatusMirrors(env, spec, s);
    PassPointwise(env, spec, s.status, s.stream, s.results, 0, clk);
    LeavingPendingNeedsDeps(env, spec, Board(t.looped, s.stream), t.ix, t.data, clk.submit, i);
  }

  /** Whenever a step leaves Pending, every step it depends on is done at the end of that pass and has
      no repetition due under the data of that pass. */
  lemma LeavesPendingAfterDependencies(env: Env, spec: FlowSpec, s: Sys, clk: PassClock, i: nat, j: nat)
    requires UniqueNames(spec) && FreshIds(env) && Inv(env, spec, s) && Monotone(clk, s.clock)
    requires i < |spec.steps| && j < |spec.steps| && DependsOn(spec, i, j)
    requires |PassOf(env, spec, s, clk).looped| == |PassOf(env, spec, s, clk).final.steps| == |spec.steps|
    requires PassOf(env, spec, s, clk).looped[i].phase.Pending?
    requires !PassOf(env, spec, s, clk).final.steps[i].phase.Pending?
    ensures var t := PassOf(env, spec, s, clk);
            && t.final.steps[j].phase.Done()
            && !RepetitionDue(env.engine, spec.steps[j], t.final.steps[j], t.data)
  {
    hide IsTruthy, Pass, StatusOk, ParseStep, CollectStep;
    var t := PassOf(env, spec, s, clk);
    PassStory(env, spec, s, clk, j);
    LeavesWithDepsDone(env, spec, s, clk, i);
    assert DepDone(spec.steps[j].name, t.board.steps, t.ix);
  }

  /** No started step has an unfinished dependency. */
  ghost predicate DepsClosed(spec: FlowSpec, steps: seq<StepStatus>) {
    |steps| == |spec.steps| &&
    forall i, j :: 0 <= i < |steps| && 0 <= j < |steps| && DependsOn(spec, i, j) && !steps[i].phase.Pending? ==>
      steps[j].phase.Done()
  }

  lemma LoopFreeIsNeverDue(engine: Engine, spec: FlowSpec, st: StepStatus, data: TemplateData, i: nat)
    requires LoopFree(spec) && i < |spec.steps|
    ensures !RepetitionDue(engine, spec.steps[i], st, data)
  {
  }

  lemma ClosedByParts(spec: FlowSpec, steps: seq<StepStatus>)
    requires |steps| == |spec.steps|
    requires forall i, j ::
               0 <= i < |steps| && 0 <= j < |steps| && DependsOn(spec, i, j) && !steps[i].phase.Pending? ==>
                 steps[j].phase.Done()
    ensures DepsClosed(spec, steps)
  {
  }

  lemma DepBefore(env: Env, spec: FlowSpec, s: Sys, clk: PassClock, i: nat, j: nat)
    requires UniqueNames(spec) && StatusOk(env, spec, s) && (s.status.phase.Unset? || DepsClosed(spec, s.status.steps))
    requires i < |spec.steps| && j < |spec.steps| && DependsOn(spec, i, j)
    ensures var steps := PassOf(env, spec, s, clk).init.steps;
            |steps| == |spec.steps| && (!steps[i].phase.Pending? ==> steps[j].phase.Done())
  {
    hide IsTruthy, SubmittedUpTo, PhaseUpdated, StepsOk, DataOf, StatusByName, Collected, ParseAll, LoopsEvaluated,
      Submissions;
    StatusMirrors(env, spec, s);
  }

  lemma DepInPass(env: Env, spec: FlowSpec, s: Sys, clk: PassClock, i: nat, j: nat)
    requires UniqueNames(spec) && LoopFree(spec) && FreshIds(env) && Inv(env, spec, s) && Monotone(clk, s.clock)
    requires s.status.phase.Unset? || DepsClosed(spec, s.status.steps)
    requires i < |spec.steps| && j < |spec.steps| && DependsOn(spec, i, j)
    ensures var t := PassOf(env, spec, s, clk);
            && |t.parsed| == |t.final.steps| == |spec.steps|
            && (!t.parsed[i].phase.Pending? ==> t.parsed[j].phase.Done())
            && (!t.final.steps[i].phase.Pending? ==> t.final.steps[j].phase.Done())
  {
    hide IsTruthy, Pass, StatusOk, ParsedJson, HasSchema, CollectStep, RepetitionDue, DepsClosed;
    var t := PassOf(env, spec, s, clk);
    DepBefore(env, spec, s, clk, i, j);
    PassStory(env, spec, s, clk, i);
    PassStory(env, spec, s, clk, j);
    CollectAdvances(t.init.steps[i], s.results, clk.collect);
    CollectAdvances(t.init.steps[j], s.results, clk.collect);
    LoopFreeIsNeverDue(env.engine, spec, t.parsed[i], t.data, i);
    LoopFreeIsNeverDue(env.engine, spec, t.parsed[j], t.data, j);
    if t.looped[i].phase.Pending? && !t.final.steps[i].phase.Pending? {
      LeavesPendingAfterDependencies(env, spec, s, clk, i, j);
    }
  }

  lemma PassKeepsDepsClosed(env: Env, spec: FlowSpec, s: Sys, clk: PassClock)
    requires UniqueNames(spec) && LoopFree(spec) && FreshIds(env) && Inv(env, spec, s) && Monotone(clk, s.clock)
    requires s.status.phase.Unset? || DepsClosed(spec, s.status.steps)
    ensures DepsClosed(spec, PassOf(env, spec, s, clk).parsed)
    ensures PassOf(env, spec, s, clk).looped == PassOf(env, spec, s, clk).parsed
    ensures DepsClosed(spec, PassOf(env, spec, s, clk).final.steps)
  {
    hide IsTruthy, Pass, StatusOk, ParsedJson, HasSchema, CollectStep, RepetitionDue, DepsClosed;
    var t := PassOf(env, spec, s, clk);
    PassMirrors(env, spec, s, 0, clk);
    forall i | 0 <= i < |spec.steps| ensures t.looped[i] == t.parsed[i] && |t.parsed| == |t.looped| == |spec.steps| {
      PassStory(env, spec, s, clk, i);
      LoopFreeIsNeverDue(env.engine, spec, t.parsed[i], t.data, i);
    }
    assert t.looped == t.parsed;
    forall i, j | 0 <= i < |spec.steps| && 0 <= j < |spec.steps| && DependsOn(spec, i, j)
      ensures !t.parsed[i].phase.Pending? ==> t.parsed[j].phase.Done()
      ensures !t.final.steps[i].phase.Pending? ==> t.final.steps[j].phase.Done()
    {
      DepInPass(env, spec, s, clk, i, j);
    }
    ClosedByParts(spec, t.parsed);
    ClosedByParts(spec, t.final.steps);
  }

  /** A step launched or skipped in a round had every dependency done when its turn came; the status of
      a step listed no earlier was then still what the loops had left. */
  lemma LaterDepWasDone(env: Env, spec: FlowSpec, s: Sys, clk: PassClock, i: nat, j: nat)
    requires UniqueNames(spec) && StatusOk(env, spec, s) && i <= j < |spec.steps| && DependsOn(spec, i, j)
    requires |PassOf(env, spec, s, clk).looped| == |PassOf(env, spec, s, clk).final.steps| == |spec.steps|
    requires PassOf(env, spec, s, clk).looped[i] != PassOf(env, spec, s, clk).final.steps[i]
    ensures PassOf(env, spec, s, clk).looped[j].phase.Done()
  {
    hide IsTruthy, SubmittedUpTo, PhaseUpdated, StepsOk, DataOf, StatusByName, Collected, ParseAll, LoopsEvaluated,
      Submissions, ParseStep, CollectStep, RepetitionDue, Rearm, SkipsStep, ResolvePrompt;
    var t := PassOf(env, spec, s, clk);
    var b := Board(t.looped, s.stream);
    StatusMirrors(env, spec, s);
    PassPointwise(env, spec, s.status, s.stream, s.results, 0, clk);
    SubmitFate(env, spec, b, t.ix, t.data, clk.submit, i);
    SubmittedNone(env, spec, b, t.ix, t.data, clk.submit);
    SubmitPrefix(env, spec, b, t.ix, t.data, clk.submit, 0, i);
    assert DepDone(spec.steps[j].name, SubmittedUpTo(env, spec, b, t.ix, t.data, clk.submit, i).steps, t.ix);
  }

  /** A pass cut short keeps the order as well. */
  lemma CutShortKeepsDepsClosed(env: Env, spec: FlowSpec, s: Sys, clk: PassClock, k: nat)
    requires UniqueNames(spec) && LoopFree(spec) && FreshIds(env) && Inv(env, spec, s) && Monotone(clk, s.clock)
    requires s.status.phase.Unset? || DepsClosed(spec, s.status.steps)
    ensures DepsClosed(spec, CutShort(env, spec, s, PassOf(env, spec, s, clk), clk, k).status.steps)
  {
    hide IsTruthy, Pass, StatusOk, ParsedJson, HasSchema, CollectStep, RepetitionDue, DepsClosed, Interrupted;
    var t := PassOf(env, spec, s, clk);
    var q := CutShort(env, spec, s, t, clk, k).status.steps;
    InterruptedStory(env, spec, s, clk, k);
    PassKeepsDepsClosed(env, spec, s, clk);
    forall i, j | 0 <= i < |spec.steps| && 0 <= j < |spec.steps| && DependsOn(spec, i, j) && !q[i].phase.Pending?
      ensures q[j].phase.Done()
    {
      DepInPass(env, spec, s, clk, i, j);
      PassStory(env, spec, s, clk, j);
      if i < k <= j && t.looped[i] != t.final.steps[i] {
        LaterDepWasDone(env, spec, s, clk, i, j);
      }
    }
    ClosedByParts(spec, q);
  }

  /** In a loop-free flow every reachable status has all dependencies of every started step done. */
  lemma {:induction false} DependencySafety(env: Env, spec: FlowSpec, events: seq<Event>)
    requires UniqueNames(spec) && LoopFree(spec) && FreshIds(env) && LegalRun(env, spec, events)
    ensures var st := Run(env, spec, events).status; st.phase.Unset? || DepsClosed(spec, st.steps)
  {
    hide IsTruthy, Pass, StatusOk, DepsClosed, CutShort;
    if events != [] {
      var before := events[..|events| - 1];
      DependencySafety(env, spec, before);
      RunInvariant(env, spec, before);
      match events[|events| - 1]
      case Reconcile(gate, clk) => PassKeepsDepsClosed(env, spec, Run(env, spec, before), clk);
      case EnqueueFails(gate, clk, k) => CutShortKeepsDepsClosed(env, spec, Run(env, spec, before), clk, k);
      case _ =>
    }
  }

  // --- Finished flows -------------------------------------------------------------------------

  lemma StepOfBoard(env: Env, spec: FlowSpec, b: Board, clock: Time, j: nat)
    requires StepsOk(env, spec, b.steps, b.stream, clock) && j < |spec.steps|
    ensures b.steps[j].iterations <= EffectiveMax(spec.steps[j])
  {
  }

  /** A finished flow keeps its phase, steps, output and completion time in every later state. */
  lemma {:induction false} TerminalIsFinal(env: Env, spec: FlowSpec, events: seq<Event>, later: seq<Event>)
    requires Run(env, spec, events).status.phase.Terminal()
    ensures var a := Run(env, spec, events).status; var b := Run(env, spec, events + later).status;
            b == a.(ready := b.ready)
    decreases |later|
  {
    hide IsTruthy, Pass;
    if later == [] {
      assert events + later == events;
    } else {
      assert (events + later)[..|events + later| - 1] == events + later[..|later| - 1];
      TerminalIsFinal(env, spec, events, later[..|later| - 1]);
    }
  }
}

/** Every reachable status of either driver is consistent, so any two runs agree. */
module DriversAgree {
  import opened FlowTypes
  import opened Templates
  import opened FlowLogic
  import opened Controller
  import opened ControllerRuns
  import opened ControllerSafety
  import opened LocalExecutor
  import opened LocalRuns
  import opened Agreement
  import Dag

  lemma SameIndex(a: seq<StepStatus>, b: seq<StepStatus>)
    requires |a| == |b| && forall i :: 0 <= i < |a| ==> a[i].name == b[i].name
    ensures StatusByName(a) == StatusByName(b)
  {
    assert StatusNames(a) == StatusNames(b);
  }

  // --- The controller -------------------------------------------------------------------------

  /** The result of a task is the agent's answer to its prompt. */
  ghost predicate Honest(env: Env, answer: Answer, spec: FlowSpec, s: Sys) {
    forall k, p | 0 <= k < |s.results| && 0 <= p < |s.stream| && s.results[k].taskId == env.idOf(p)
                  && s.stream[p].FlowTask? && s.stream[p].step < |spec.steps| ::
      s.results[k].result == answer(spec.steps[s.stream[p].step], s.stream[p].prompt)
  }

  ghost predicate HonestRun(env: Env, answer: Answer, spec: FlowSpec, events: seq<Event>) {
    && Honest(env, answer, spec, Run(env, spec, events))
    && (events == [] || HonestRun(env, answer, spec, events[..|events| - 1]))
  }

  /** The task of a running step carries the prompt that the status gives the step. */
  ghost predicate PromptedAt(env: Env, spec: FlowSpec, stream: seq<Entry>, i: nat, st: StepStatus, data: TemplateData,
                             p: nat)
    requires i < |spec.steps| && p < |stream|
  {
    IssuedAt(env, stream, i, st, p) && stream[p].prompt == PromptOrEmpty(env.engine, spec.steps[i], data)
  }

  ghost predicate RunningOk(env: Env, spec: FlowSpec, stream: seq<Entry>, i: nat, st: StepStatus, data: TemplateData)
    requires i < |spec.steps|
  {
    st.phase.Running? ==>
      && !SkipsStep(env.engine, spec.steps[i], data)
      && exists p :: 0 <= p < |stream| && PromptedAt(env, spec, stream, i, st, data, p)
  }

  ghost predicate BoardOk(env: Env, answer: Answer, spec: FlowSpec, steps: seq<StepStatus>, stream: seq<Entry>) {
    && Consistent(env.engine, answer, spec, steps)
    && forall i :: 0 <= i < |steps| ==> RunningOk(env, spec, stream, i, steps[i], View(env.engine, spec, steps))
  }

  /** A record collected in this pass is justified: the result answers the prompt of its own task. */
  lemma CollectedIsJustified(env: Env, answer: Answer, spec: FlowSpec, s: Sys, i: nat, a: StepStatus,
                             clock: nat -> Time, data: TemplateData)
    requires FreshIds(env) && Honest(env, answer, spec, s) && i < |spec.steps| && a.name == spec.steps[i].name
    requires Justified(env.engine, answer, spec, i, a, data) && RunningOk(env, spec, s.stream, i, a, data)
    ensures var q := ParseStep(env.engine, spec, CollectStep(a, s.results, clock, 0, |s.results|));
            && Justified(env.engine, answer, spec, i, q, data) && RunningOk(env, spec, s.stream, i, q, data)
            && (a.phase.Done() ==> q == a)
  {
    hide SkipsStep, PromptOrEmpty, HasSchema, ParsedJson;
    if a.phase.Running? {
      AppliedOutcome(a, s.results, clock, 0, |s.results|);
      var c := CollectStep(a, s.results, clock, 0, |s.results|);
      if c != a {
        var k :| 0 <= k < |s.results| && CompletedBy(a, c, s.results[k], clock(k));
        var p :| 0 <= p < |s.stream| && PromptedAt(env, spec, s.stream, i, a, data, p);
        assert s.results[k].taskId == env.idOf(p);
      }
    }
  }

  lemma RunningStaysOk(env: Env, spec: FlowSpec, stream: seq<Entry>, i: nat, st: StepStatus, names: set<string>,
                       a: TemplateData, b: TemplateData)
    requires ReadsOnlyUpstream(env.engine, spec) && i < |spec.steps| && RunningOk(env, spec, stream, i, st, a)
    requires CoversUpstream(spec, i, names) && SameOn(names, a, b)
    ensures RunningOk(env, spec, stream, i, st, b)
  {
    hide SkipsStep, ResolvePrompt, CoversUpstream, SameOn, ReadsOnlyUpstream;
    StepReadsUpstream(env.engine, spec, i, names, a, b);
    if st.phase.Running? {
      var p :| 0 <= p < |stream| && PromptedAt(env, spec, stream, i, st, a, p);
      assert PromptedAt(env, spec, stream, i, st, b, p);
    }
  }

  /** The first half of a pass: collecting and parsing keep the board consistent. */
  lemma ParsedBoardOk(env: Env, answer: Answer, spec: FlowSpec, s: Sys, steps: seq<StepStatus>, parsed: seq<StepStatus>,
                      clock: nat -> Time)
    requires UniqueNames(spec) && Dag.DependenciesKnown(spec) && FreshIds(env) && ReadsOnlyUpstream(env.engine, spec)
    requires Honest(env, answer, spec, s) && BoardOk(env, answer, spec, steps, s.stream)
    requires Mirrors(spec, parsed) && DepsClosed(spec, parsed)
    requires forall i :: 0 <= i < |spec.steps| ==>
               parsed[i] == ParseStep(env.engine, spec, CollectStep(steps[i], s.results, clock, 0, |s.results|))
    ensures BoardOk(env, answer, spec, parsed, s.stream)
  {
    hide SkipsStep, PromptOrEmpty, ParseStep, CollectStep, View, ReadsOnlyUpstream, Justified, RunningOk,
      CoversUpstream, SameOn, StepEntry, Honest;
    var v, w := View(env.engine, spec, steps), View(env.engine, spec, parsed);
    forall i | 0 <= i < |spec.steps|
      ensures Justified(env.engine, answer, spec, i, parsed[i], v) && RunningOk(env, spec, s.stream, i, parsed[i], v)
      ensures steps[i].phase.Done() ==> parsed[i] == steps[i]
    {
      CollectedIsJustified(env, answer, spec, s, i, steps[i], clock, v);
    }
    SameView(env.engine, spec, steps, parsed);
    forall i | 0 <= i < |spec.steps|
      ensures Justified(env.engine, answer, spec, i, parsed[i], w) && RunningOk(env, spec, s.stream, i, parsed[i], w)
    {
      if steps[i].phase.Pending? {
        PendingStaysPending(env, spec, steps[i], s.results, clock);
        PendingIsFine(env, answer, spec, i, parsed[i], s.stream, v, w);
      } else {
        UpstreamIsDone(spec, steps, i);
        StaysJustified(env.engine, answer, spec, i, parsed[i], DoneNames(spec, steps), v, w);
        RunningStaysOk(env, spec, s.stream, i, parsed[i], DoneNames(spec, steps), v, w);
      }
    }
  }

  lemma PendingStaysPending(env: Env, spec: FlowSpec, st: StepStatus, results: seq<ResultMsg>, clock: nat -> Time)
    requires st.phase.Pending?
    ensures ParseStep(env.engine, spec, CollectStep(st, results, clock, 0, |results|)) == st
  {
  }

  lemma PendingIsFine(env: Env, answer: Answer, spec: FlowSpec, i: nat, st: StepStatus, stream: seq<Entry>,
                      a: TemplateData, b: TemplateData)
    requires i < |spec.steps| && st.phase.Pending? && Justified(env.engine, answer, spec, i, st, a)
    ensures Justified(env.engine, answer, spec, i, st, b) && RunningOk(env, spec, stream, i, st, b)
  {
  }

  /** The second half of a pass: after any number of turns, each step submitted, skipped or rejected is
      justified. */
  lemma SubmittedBoardOk(env: Env, answer: Answer, spec: FlowSpec, b: Board, ix: map<string, nat>, data: TemplateData,
                         clock: nat -> Time, n: nat)
    requires UniqueNames(spec) && Faithful(spec, ix) && Pointers(ix, b.steps) && n <= |spec.steps|
    requires BoardOk(env, answer, spec, b.steps, b.stream) && data == View(env.engine, spec, b.steps)
    requires DepsClosed(spec, SubmittedUpTo(env, spec, b, ix, data, clock, n).steps)
    ensures var r := SubmittedUpTo(env, spec, b, ix, data, clock, n);
            BoardOk(env, answer, spec, r.steps, r.stream) && View(env.engine, spec, r.steps) == data
  {
    hide IsTruthy, SkipsStep, PromptOrEmpty, SubmittedUpTo, View, Justified, RunningOk, StepEntry, DepsClosed;
    var r := SubmittedUpTo(env, spec, b, ix, data, clock, n);
    SubmittedMirrors(env, spec, b, ix, data, clock, n);
    forall i | 0 <= i < |spec.steps|
      ensures StepEntry(env.engine, r.steps[i]) == StepEntry(env.engine, b.steps[i])
      ensures Justified(env.engine, answer, spec, i, r.steps[i], data)
      ensures RunningOk(env, spec, r.stream, i, r.steps[i], data)
    {
      SubmittedStepOk(env, answer, spec, b, ix, data, clock, i, n);
    }
    EqualViews(env.engine, spec, b.steps, r.steps);
  }

  lemma SubmittedStepOk(env: Env, answer: Answer, spec: FlowSpec, b: Board, ix: map<string, nat>, data: TemplateData,
                        clock: nat -> Time, i: nat, n: nat)
    requires Faithful(spec, ix) && Pointers(ix, b.steps) && Mirrors(spec, b.steps) && i < |spec.steps|
    requires n <= |spec.steps|
    requires Justified(env.engine, answer, spec, i, b.steps[i], data)
    requires RunningOk(env, spec, b.stream, i, b.steps[i], data)
    ensures var r := SubmittedUpTo(env, spec, b, ix, data, clock, n);
            && StepEntry(env.engine, r.steps[i]) == StepEntry(env.engine, b.steps[i])
            && Justified(env.engine, answer, spec, i, r.steps[i], data)
            && RunningOk(env, spec, r.stream, i, r.steps[i], data)
  {
    hide IsTruthy, SkipsStep, ResolvePrompt, SubmittedUpTo, JsonOf, DepsSucceeded;
    var r := SubmittedUpTo(env, spec, b, ix, data, clock, n);
    var turn := SubmittedUpTo(env, spec, b, ix, data, clock, i);
    if i < n {
      FateBy(env, spec, b, ix, data, clock, i, n);
    } else {
      SubmittedNone(env, spec, b, ix, data, clock);
      SubmitPrefix(env, spec, b, ix, data, clock, 0, n);
    }
    if b.steps[i].phase.Running? {
      var p :| 0 <= p < |b.stream| && PromptedAt(env, spec, b.stream, i, b.steps[i], data, p);
      assert r.stream[p] == b.stream[p];
      assert PromptedAt(env, spec, r.stream, i, r.steps[i], data, p);
    } else if r.steps[i].phase.Running? {
      assert PromptedAt(env, spec, r.stream, i, r.steps[i], data, |turn.stream|);
    }
  }

  lemma FreshBoardOk(env: Env, answer: Answer, spec: FlowSpec, stream: seq<Entry>)
    ensures BoardOk(env, answer, spec, InitialSteps(spec), stream)
  {
    hide View;
  }

  /** The records that a pass submits from are consistent, and it submits with their view. */
  lemma LoopedBoardOk(env: Env, answer: Answer, spec: FlowSpec, s: Sys, clk: PassClock)
    requires UniqueNames(spec) && LoopFree(spec) && Dag.ValidDag(spec) && FreshIds(env)
    requires ReadsOnlyUpstream(env.engine, spec)
    requires Inv(env, spec, s) && Monotone(clk, s.clock) && Honest(env, answer, spec, s)
    requires s.status.phase.Unset? || BoardOk(env, answer, spec, s.status.steps, s.stream)
    ensures var t := PassOf(env, spec, s, clk);
            && Faithful(spec, t.ix) && BoardOk(env, answer, spec, t.looped, s.stream)
            && t.data == View(env.engine, spec, t.looped)
  {
    hide IsTruthy, SubmittedUpTo, PhaseUpdated, StatusOk, DataOf, ParseStep, CollectStep, DepsClosed, Justified,
      RunningOk, View, Collected, ParseAll, LoopsEvaluated;
    var t := PassOf(env, spec, s, clk);
    FreshBoardOk(env, answer, spec, s.stream);
    MirrorsOfConsistent(env, answer, spec, s);
    PassPointwise(env, spec, s.status, s.stream, s.results, 0, clk);
    PassKeepsDepsClosed(env, spec, s, clk);
    ParsedBoardOk(env, answer, spec, s, t.init.steps, t.parsed, clk.collect);
    SameIndex(t.init.steps, t.parsed);
    DataIsView(env.engine, spec, t.parsed, t.ix);
  }

  /** A pass keeps the status consistent, and the flow output is the one its steps give. */
  lemma PassKeepsConsistent(env: Env, answer: Answer, spec: FlowSpec, s: Sys, clk: PassClock)
    requires UniqueNames(spec) && LoopFree(spec) && Dag.ValidDag(spec) && FreshIds(env)
    requires ReadsOnlyUpstream(env.engine, spec)
    requires Inv(env, spec, s) && Monotone(clk, s.clock) && Honest(env, answer, spec, s)
    requires s.status.phase.Unset? || BoardOk(env, answer, spec, s.status.steps, s.stream)
    ensures var t := PassOf(env, spec, s, clk);
            && BoardOk(env, answer, spec, t.final.steps, t.board.stream)
            && t.data == View(env.engine, spec, t.final.steps)
  {
    hide IsTruthy, Pass, SubmittedUpTo, StatusOk, BoardOk, View;
    var t := PassOf(env, spec, s, clk);
    MirrorsOfConsistent(env, answer, spec, s);
    LoopedBoardOk(env, answer, spec, s, clk);
    PassKeepsDepsClosed(env, spec, s, clk);
    BoardOfPass(env, spec, s, clk);
    SubmittedBoardOk(env, answer, spec, Board(t.looped, s.stream), t.ix, t.data, clk.submit, |spec.steps|);
  }

  /** So does a pass cut short, and it leaves the flow output alone. */
  lemma CutShortKeepsConsistent(env: Env, answer: Answer, spec: FlowSpec, s: Sys, clk: PassClock, k: nat)
    requires UniqueNames(spec) && LoopFree(spec) && Dag.ValidDag(spec) && FreshIds(env)
    requires ReadsOnlyUpstream(env.engine, spec)
    requires Inv(env, spec, s) && Monotone(clk, s.clock) && Honest(env, answer, spec, s)
    requires s.status.phase.Unset? || BoardOk(env, answer, spec, s.status.steps, s.stream)
    requires !s.status.phase.Terminal() && s.status.output == ""
    ensures var q := CutShort(env, spec, s, PassOf(env, spec, s, clk), clk, k);
            BoardOk(env, answer, spec, q.status.steps, q.stream) && OutputOk(env.engine, spec, q.status)
  {
    hide IsTruthy, Pass, SubmittedUpTo, StatusOk, BoardOk, View;
    var t := PassOf(env, spec, s, clk);
    MirrorsOfConsistent(env, answer, spec, s);
    LoopedBoardOk(env, answer, spec, s, clk);
    CutShortKeepsDepsClosed(env, spec, s, clk, k);
    StartOfPass(env, spec, s, clk);
    StartKeepsOutput(env, spec, s, clk);
    SubmittedBoardOk(env, answer, spec, Board(t.looped, s.stream), t.ix, t.data, clk.submit,
                     if k <= |spec.steps| then k else |spec.steps|);
  }

  lemma StartKeepsOutput(env: Env, spec: FlowSpec, s: Sys, clk: PassClock)
    ensures PassOf(env, spec, s, clk).init.output == s.status.output
  {
    hide IsTruthy, SubmittedUpTo, DataOf, Collected, ParseAll, LoopsEvaluated, StatusByName, PhaseUpdated;
  }

  lemma DataIsView(engine: Engine, spec: FlowSpec, steps: seq<StepStatus>, ix: map<string, nat>)
    requires Pointers(ix, steps) && ix == StatusByName(steps)
    ensures DataOf(engine, spec, steps, ix) == View(engine, spec, steps)
  {
  }

  lemma MirrorsOfConsistent(env: Env, answer: Answer, spec: FlowSpec, s: Sys)
    requires s.status.phase.Unset? || BoardOk(env, answer, spec, s.status.steps, s.stream)
    ensures !s.status.phase.Unset? ==> Mirrors(spec, s.status.steps) && DepsClosed(spec, s.status.steps)
  {
  }

  ghost predicate OutputOk(engine: Engine, spec: FlowSpec, st: FlowStatus) {
    if st.phase.FlowSucceeded?
    then AllDone(st.steps) && st.output == FlowOutput(engine, spec, View(engine, spec, st.steps), "")
    else st.output == ""
  }

  lemma PassOutputOk(env: Env, answer: Answer, spec: FlowSpec, s: Sys, clk: PassClock)
    requires s.status.output == "" && !s.status.phase.Terminal()
    requires PassOf(env, spec, s, clk).data == View(env.engine, spec, PassOf(env, spec, s, clk).final.steps)
    ensures OutputOk(env.engine, spec, PassOf(env, spec, s, clk).final)
  {
    hide IsTruthy, SubmittedUpTo, DataOf, Collected, ParseAll, LoopsEvaluated, StatusByName, View, Overdue, TokenSum,
      Totals, InputTokens, OutputTokens;
  }

  ghost predicate ControllerOk(env: Env, answer: Answer, spec: FlowSpec, s: Sys) {
    && (s.status.phase.Unset? || BoardOk(env, answer, spec, s.status.steps, s.stream))
    && OutputOk(env.engine, spec, s.status)
  }

  lemma MoreTasksKeepBoard(env: Env, answer: Answer, spec: FlowSpec, steps: seq<StepStatus>, stream: seq<Entry>,
                           more: seq<Entry>)
    requires BoardOk(env, answer, spec, steps, stream)
    ensures BoardOk(env, answer, spec, steps, stream + more)
  {
    hide Consistent, SkipsStep, PromptOrEmpty, View;
    var data := View(env.engine, spec, steps);
    ConsistentLength(env.engine, answer, spec, steps);
    forall i | 0 <= i < |steps|
      ensures RunningOk(env, spec, stream + more, i, steps[i], data)
    {
      assert RunningOk(env, spec, stream, i, steps[i], data);
      if steps[i].phase.Running? {
        var p :| 0 <= p < |stream| && PromptedAt(env, spec, stream, i, steps[i], data, p);
        assert PromptedAt(env, spec, stream + more, i, steps[i], data, p);
      }
    }
  }

  lemma ConsistentLength(engine: Engine, answer: Answer, spec: FlowSpec, steps: seq<StepStatus>)
    requires Consistent(engine, answer, spec, steps)
    ensures |steps| == |spec.steps|
  {
  }

  /** Every reachable status of the controller is consistent, whatever the order of results. */
  lemma {:induction false} ControllerIsConsistent(env: Env, answer: Answer, spec: FlowSpec, events: seq<Event>)
    requires UniqueNames(spec) && LoopFree(spec) && FreshIds(env) && ReadsOnlyUpstream(env.engine, spec)
    requires LegalRun(env, spec, events) && HonestRun(env, answer, spec, events)
    ensures ControllerOk(env, answer, spec, Run(env, spec, events))
  {
    hide IsTruthy, Pass, StatusOk, BoardOk, ReadsOnlyUpstream, FlowOutput, View, CutShort;
    if events != [] {
      var before := events[..|events| - 1];
      ControllerIsConsistent(env, answer, spec, before);
      RunInvariant(env, spec, before);
      var s := Run(env, spec, before);
      match events[|events| - 1]
      case ResultsArrive(msgs) =>
      case OthersSubmit(count) =>
        if !s.status.phase.Unset? {
          MoreTasksKeepBoard(env, answer, spec, s.status.steps, s.stream, Foreign(count));
        }
      case Reconcile(gate, clk) =>
        if Opens(spec, s.status, gate) {
          PassKeepsConsistent(env, answer, spec, s, clk);
          PassOutputOk(env, answer, spec, s, clk);
        }
      case EnqueueFails(gate, clk, k) =>
        if Opens(spec, s.status, gate) {
          OpensWhenNotTerminal(spec, s.status, gate);
          CutShortKeepsConsistent(env, answer, spec, s, clk, k);
        }
    }
  }

  // --- The local executor ---------------------------------------------------------------------

  /** Whenever a call of an agent succeeds, its output depends only on the step and the prompt. */
  ghost predicate Deterministic(env: LocalEnv, answer: Answer, spec: FlowSpec) {
    forall n, pos, prompt | 0 <= pos < |spec.steps| && env.agent(n, pos, prompt).error.None? ::
      env.agent(n, pos, prompt).output == answer(spec.steps[pos], prompt)
  }

  /** What a batch of a loop-free flow does to a justified record. */
  lemma BatchRecord(env: LocalEnv, answer: Answer, spec: FlowSpec, s: LocalState, n: nat, i: nat)
    requires EveryResultArrives(env) && Deterministic(env, answer, spec) && UniqueNames(spec) && LoopFree(spec)
    requires Settled(spec, s.status.steps) && i < |spec.steps|
    requires Justified(env.engine, answer, spec, i, s.status.steps[i], Batch(env, spec, s, n).data)
    ensures var t := Batch(env, spec, s, n);
            var st := s.status.steps[i];
            && StepEntry(env.engine, t.round.steps[i]) == StepEntry(env.engine, st)
            && Justified(env.engine, answer, spec, i, t.final.status.steps[i], t.data)
            && (st.phase.Done() ==> t.round.steps[i] == st)
            && (t.round.steps[i].phase.Done() ==> t.final.status.steps[i] == t.round.steps[i])
            && (t.final.status.steps[i].phase.Pending? ==> st.phase.Pending?)
  {
    hide IsTruthy, Batch, ReadyUpTo, PromptOrEmpty, HasSchema, ParsedJson, DepsSucceeded, RepetitionDue;
    var t := Batch(env, spec, s, n);
    BatchStages(env, spec, s, n);
    NotDue(env.engine, spec, s.status.steps[i], t.data, i);
    BatchResults(env, spec, s, n, i);
    ReadyFate(env.engine, spec, t.looped, t.ix, t.data, env.clock(n).skip, i);
  }

  lemma NotDue(engine: Engine, spec: FlowSpec, st: StepStatus, data: TemplateData, i: nat)
    requires LoopFree(spec) && i < |spec.steps|
    ensures !RepetitionDue(engine, spec.steps[i], st, data)
  {
  }

  /** A step that left Pending in a batch had its dependencies done by the end of the round. */
  lemma BatchDeps(env: LocalEnv, spec: FlowSpec, s: LocalState, n: nat, i: nat, j: nat)
    requires EveryResultArrives(env) && UniqueNames(spec) && LoopFree(spec) && Settled(spec, s.status.steps)
    requires i < |spec.steps| && j < |spec.steps| && DependsOn(spec, i, j) && s.status.steps[i].phase.Pending?
    requires var t := Batch(env, spec, s, n); |t.round.steps| == |t.final.status.steps| == |spec.steps|
    requires var t := Batch(env, spec, s, n);
             !t.round.steps[i].phase.Pending? || !t.final.status.steps[i].phase.Pending?
    ensures Batch(env, spec, s, n).round.steps[j].phase.Done()
  {
    hide IsTruthy, Batch, ReadyUpTo, HasSchema, ParsedJson, RepetitionDue;
    var t := Batch(env, spec, s, n);
    BatchStages(env, spec, s, n);
    NotDue(env.engine, spec, s.status.steps[i], t.data, i);
    BatchResults(env, spec, s, n, i);
    ReadyFate(env.engine, spec, t.looped, t.ix, t.data, env.clock(n).skip, i);
    DepAtTurn(env.engine, spec, t.looped, t.ix, t.data, env.clock(n).skip, i, j);
    var turn := ReadyUpTo(env.engine, spec, t.looped, t.ix, t.data, env.clock(n).skip, i);
    assert DepDone(spec.steps[j].name, turn.steps, t.ix);
  }

  lemma BatchKeepsConsistent(env: LocalEnv, answer: Answer, spec: FlowSpec, s: LocalState, n: nat)
    requires EveryResultArrives(env) && Deterministic(env, answer, spec) && UniqueNames(spec) && LoopFree(spec)
    requires Dag.DependenciesKnown(spec) && ReadsOnlyUpstream(env.engine, spec)
    requires Settled(spec, s.status.steps) && Consistent(env.engine, answer, spec, s.status.steps)
    ensures Consistent(env.engine, answer, spec, Batch(env, spec, s, n).final.status.steps)
  {
    hide IsTruthy, Batch, ReadyUpTo, ReadsOnlyUpstream, Justified, View, StepEntry, CoversUpstream, SameOn,
      Deterministic;
    var t := Batch(env, spec, s, n);
    BatchKeepsSettled(env, spec, s, n);
    BatchSeesView(env, spec, s, n);
    var mid, last := t.round.steps, t.final.status.steps;
    forall i | 0 <= i < |spec.steps|
      ensures StepEntry(env.engine, mid[i]) == StepEntry(env.engine, s.status.steps[i])
      ensures Justified(env.engine, answer, spec, i, last[i], t.data)
      ensures s.status.steps[i].phase.Done() ==> mid[i] == s.status.steps[i]
      ensures mid[i].phase.Done() ==> last[i] == mid[i]
    {
      BatchRecord(env, answer, spec, s, n, i);
    }
    forall i, j | 0 <= i < |spec.steps| && 0 <= j < |spec.steps| && DependsOn(spec, i, j)
      ensures !mid[i].phase.Pending? || !last[i].phase.Pending? ==> mid[j].phase.Done() && last[j].phase.Done()
    {
      BatchRecord(env, answer, spec, s, n, i);
      if s.status.steps[i].phase.Pending? && (!mid[i].phase.Pending? || !last[i].phase.Pending?) {
        BatchDeps(env, spec, s, n, i, j);
      }
    }
    assert DepsClosed(spec, mid) && DepsClosed(spec, last);
    EqualViews(env.engine, spec, s.status.steps, mid);
    SameView(env.engine, spec, mid, last);
    forall i | 0 <= i < |spec.steps|
      ensures Justified(env.engine, answer, spec, i, last[i], View(env.engine, spec, last))
    {
      if last[i].phase.Pending? {
        StillPending(env.engine, answer, spec, i, last[i], t.data, View(env.engine, spec, last));
      } else {
        UpstreamIsDone(spec, mid, i);
        StaysJustified(env.engine, answer, spec, i, last[i], DoneNames(spec, mid), t.data,
                       View(env.engine, spec, last));
      }
    }
  }

  lemma StillPending(engine: Engine, answer: Answer, spec: FlowSpec, i: nat, st: StepStatus, a: TemplateData,
                     b: TemplateData)
    requires i < |spec.steps| && st.phase.Pending? && Justified(engine, answer, spec, i, st, a)
    ensures Justified(engine, answer, spec, i, st, b)
  {
  }

  lemma BatchSeesView(env: LocalEnv, spec: FlowSpec, s: LocalState, n: nat)
    requires EveryResultArrives(env)
    ensures Batch(env, spec, s, n).data == View(env.engine, spec, s.status.steps)
  {
    hide IsTruthy, ReadyUpTo, Ran, Closed, PhaseUpdated, LoopsEvaluated;
  }

  lemma BatchOutputOk(env: LocalEnv, spec: FlowSpec, s: LocalState, n: nat)
    requires EveryResultArrives(env) && s.status.output == "" && !s.status.phase.Terminal()
    requires UniqueNames(spec) && LoopFree(spec) && Settled(spec, s.status.steps)
    requires |Batch(env, spec, s, n).round.ready| == 0 ==>
               View(env.engine, spec, Batch(env, spec, s, n).round.steps) == View(env.engine, spec, s.status.steps)
    ensures OutputOk(env.engine, spec, Batch(env, spec, s, n).final.status)
  {
    hide IsTruthy, ReadyUpTo, Ran, Closed, LoopsEvaluated, Overdue, TokenSum, Totals, InputTokens, OutputTokens,
      Settled, View, DataOf, StatusByName;
    var t := Batch(env, spec, s, n);
    if t.round.ready == [] {
      BatchSeesView(env, spec, s, n);
    } else {
      assert Permutation(env.arrivals(n, |t.round.ready|), |t.round.ready|);
      BenchNames(env, spec, s, n);
      SameIndex(s.status.steps, t.bench.steps);
      ClosedOutputOk(env, spec, s.status, t.bench.steps, t.ix, n);
    }
  }

  lemma BenchNames(env: LocalEnv, spec: FlowSpec, s: LocalState, n: nat)
    requires EveryResultArrives(env) && UniqueNames(spec) && Settled(spec, s.status.steps)
    ensures forall i :: 0 <= i < |s.status.steps| ==>
              Batch(env, spec, s, n).bench.steps[i].name == s.status.steps[i].name
  {
    hide IsTruthy, Batch, ReplyTo, ReadyUpTo;
    var t := Batch(env, spec, s, n);
    BatchKeepsSettled(env, spec, s, n);
    forall i | 0 <= i < |spec.steps| ensures t.bench.steps[i].name == spec.steps[i].name {
      BatchResults(env, spec, s, n, i);
    }
  }

  lemma ClosedOutputOk(env: LocalEnv, spec: FlowSpec, st: FlowStatus, ran: seq<StepStatus>, ix: map<string, nat>,
                       n: nat)
    requires Pointers(ix, ran) && st.output == "" && !st.phase.Terminal()
    requires ix == StatusByName(ran)
    ensures OutputOk(env.engine, spec, Closed(env, spec, st, ran, ix, n))
  {
    hide IsTruthy, Overdue, TokenSum, Totals, InputTokens, OutputTokens, DataOf, StatusByName, ParseStep;
    var parsed := ParseAll(env.engine, spec, ran, ix);
    forall i | 0 <= i < |ran| ensures parsed[i].name == ran[i].name {
      ParseKeepsName(env.engine, spec, ran[i]);
    }
    SameIndex(ran, parsed);
  }

  lemma ParseKeepsName(engine: Engine, spec: FlowSpec, st: StepStatus)
    ensures ParseStep(engine, spec, st).name == st.name
  {
  }

  ghost predicate LocalOk(env: LocalEnv, answer: Answer, spec: FlowSpec, st: FlowStatus) {
    && Settled(spec, st.steps) && Consistent(env.engine, answer, spec, st.steps)
    && OutputOk(env.engine, spec, st)
  }

  lemma RoundView(env: LocalEnv, answer: Answer, spec: FlowSpec, s: LocalState, n: nat)
    requires EveryResultArrives(env) && Deterministic(env, answer, spec) && UniqueNames(spec) && LoopFree(spec)
    requires Settled(spec, s.status.steps) && Consistent(env.engine, answer, spec, s.status.steps)
    ensures View(env.engine, spec, Batch(env, spec, s, n).round.steps) == View(env.engine, spec, s.status.steps)
  {
    hide IsTruthy, Batch, Justified, View, StepEntry, Deterministic, DepsClosed;
    var t := Batch(env, spec, s, n);
    BatchKeepsSettled(env, spec, s, n);
    BatchSeesView(env, spec, s, n);
    forall i | 0 <= i < |spec.steps|
      ensures StepEntry(env.engine, t.round.steps[i]) == StepEntry(env.engine, s.status.steps[i])
    {
      BatchRecord(env, answer, spec, s, n, i);
    }
    EqualViews(env.engine, spec, s.status.steps, t.round.steps);
  }

  lemma FreshLocalOk(env: LocalEnv, answer: Answer, spec: FlowSpec)
    ensures LocalOk(env, answer, spec, Initialized(spec, FRESH_STATUS, env.started))
  {
    hide View;
  }

  /** Every reachable status of the executor is consistent, whatever the order of arrival. */
  lemma {:induction false} ExecutorIsConsistent(env: LocalEnv, answer: Answer, spec: FlowSpec, n: nat)
    requires EveryResultArrives(env) && Deterministic(env, answer, spec) && UniqueNames(spec) && LoopFree(spec)
    requires Dag.DependenciesKnown(spec) && ReadsOnlyUpstream(env.engine, spec)
    ensures LocalOk(env, answer, spec, LocalRun(env, spec, FRESH_STATUS, n).status)
  {
    hide IsTruthy, Batch, ReadsOnlyUpstream, Deterministic, Consistent, View, Settled;
    if n == 0 {
      FreshLocalOk(env, answer, spec);
    } else {
      ExecutorIsConsistent(env, answer, spec, n - 1);
      var s := LocalRun(env, spec, FRESH_STATUS, n - 1);
      if !s.halted {
        NotHaltedNotTerminal(env, spec, n - 1);
        BatchKeepsSettled(env, spec, s, n - 1);
        BatchKeepsConsistent(env, answer, spec, s, n - 1);
        RoundView(env, answer, spec, s, n - 1);
        BatchOutputOk(env, spec, s, n - 1);
      }
    }
  }

  // --- The theorems ---------------------------------------------------------------------------

  /** Every step has the same verdict and output, and so has the flow. */
  ghost predicate SameResults(spec: FlowSpec, a: FlowStatus, b: FlowStatus) {
    && |a.steps| == |b.steps| == |spec.steps|
    && (forall i :: 0 <= i < |spec.steps| ==> SameVerdict(a.steps[i], b.steps[i]))
    && a.output == b.output
  }

  /** Any state of any controller run and any state of any local run agree on every step that is done
      in both. No hypothesis on timeouts, budgets, failures or the order of results is needed. */
  lemma DriversAgreeOnDoneSteps(cenv: Env, lenv: LocalEnv, answer: Answer, spec: FlowSpec, events: seq<Event>, n: nat,
                                i: nat)
    requires UniqueNames(spec) && LoopFree(spec) && Dag.ValidDag(spec)
    requires cenv.engine == lenv.engine && ReadsOnlyUpstream(cenv.engine, spec)
    requires FreshIds(cenv) && LegalRun(cenv, spec, events) && HonestRun(cenv, answer, spec, events)
    requires EveryResultArrives(lenv) && Deterministic(lenv, answer, spec)
    requires var a := Run(cenv, spec, events).status.steps; var b := LocalRun(lenv, spec, FRESH_STATUS, n).status.steps;
             i < |a| && i < |b| && a[i].phase.Done() && b[i].phase.Done()
    ensures SameVerdict(Run(cenv, spec, events).status.steps[i], LocalRun(lenv, spec, FRESH_STATUS, n).status.steps[i])
  {
    hide IsTruthy, LegalRun, HonestRun, LocalRun, ReadsOnlyUpstream, Deterministic, Run;
    RunInvariant(cenv, spec, events);
    ControllerIsConsistent(cenv, answer, spec, events);
    ExecutorIsConsistent(lenv, answer, spec, n);
    var rank := Dag.ValidDagRank(spec);
    var s := Run(cenv, spec, events);
    ConsistentStatusesAgree(cenv.engine, answer, spec, rank, s.status.steps,
                            LocalRun(lenv, spec, FRESH_STATUS, n).status.steps, i);
  }

  /** Two runs of the controller agree on every step that is done in both, however their results and
      passes interleave. */
  lemma ControllerRunsAgree(env1: Env, env2: Env, answer: Answer, spec: FlowSpec, run1: seq<Event>, run2: seq<Event>,
                            i: nat)
    requires UniqueNames(spec) && LoopFree(spec) && Dag.ValidDag(spec)
    requires env1.engine == env2.engine && ReadsOnlyUpstream(env1.engine, spec) && FreshIds(env1) && FreshIds(env2)
    requires LegalRun(env1, spec, run1) && HonestRun(env1, answer, spec, run1)
    requires LegalRun(env2, spec, run2) && HonestRun(env2, answer, spec, run2)
    requires var a := Run(env1, spec, run1).status.steps; var b := Run(env2, spec, run2).status.steps;
             i < |a| && i < |b| && a[i].phase.Done() && b[i].phase.Done()
    ensures SameVerdict(Run(env1, spec, run1).status.steps[i], Run(env2, spec, run2).status.steps[i])
  {
    hide IsTruthy, LegalRun, HonestRun, ReadsOnlyUpstream, Run;
    RunInvariant(env1, spec, run1);
    RunInvariant(env2, spec, run2);
    ControllerIsConsistent(env1, answer, spec, run1);
    ControllerIsConsistent(env2, answer, spec, run2);
    var rank := Dag.ValidDagRank(spec);
    ConsistentStatusesAgree(env1.engine, answer, spec, rank, Run(env1, spec, run1).status.steps,
                            Run(env2, spec, run2).status.steps, i);
  }

  /** Two runs of the executor agree on every step that is done in both, whatever the orders of arrival. */
  lemma LocalRunsAgree(env1: LocalEnv, env2: LocalEnv, answer: Answer, spec: FlowSpec, n1: nat, n2: nat, i: nat)
    requires UniqueNames(spec) && LoopFree(spec) && Dag.ValidDag(spec)
    requires env1.engine == env2.engine && ReadsOnlyUpstream(env1.engine, spec)
    requires EveryResultArrives(env1) && Deterministic(env1, answer, spec)
    requires EveryResultArrives(env2) && Deterministic(env2, answer, spec)
    requires var a := LocalRun(env1, spec, FRESH_STATUS, n1).status.steps;
             var b := LocalRun(env2, spec, FRESH_STATUS, n2).status.steps;
             i < |a| && i < |b| && a[i].phase.Done() && b[i].phase.Done()
    ensures SameVerdict(LocalRun(env1, spec, FRESH_STATUS, n1).status.steps[i],
                        LocalRun(env2, spec, FRESH_STATUS, n2).status.steps[i])
  {
    hide IsTruthy, LocalRun, ReadsOnlyUpstream, Deterministic;
    ExecutorIsConsistent(env1, answer, spec, n1);
    ExecutorIsConsistent(env2, answer, spec, n2);
    var rank := Dag.ValidDagRank(spec);
    ConsistentStatusesAgree(env1.engine, answer, spec, rank, LocalRun(env1, spec, FRESH_STATUS, n1).status.steps,
                            LocalRun(env2, spec, FRESH_STATUS, n2).status.steps, i);
  }

  /** Two controller runs that end Succeeded give every step the same verdict and output, and the
      flow the same output. */
  lemma ControllerRunsGiveTheSameOutput(env1: Env, env2: Env, answer: Answer, spec: FlowSpec, run1: seq<Event>,
                                        run2: seq<Event>)
    requires UniqueNames(spec) && LoopFree(spec) && Dag.ValidDag(spec)
    requires env1.engine == env2.engine && ReadsOnlyUpstream(env1.engine, spec) && FreshIds(env1) && FreshIds(env2)
    requires LegalRun(env1, spec, run1) && HonestRun(env1, answer, spec, run1)
    requires LegalRun(env2, spec, run2) && HonestRun(env2, answer, spec, run2)
    requires Run(env1, spec, run1).status.phase.FlowSucceeded? && Run(env2, spec, run2).status.phase.FlowSucceeded?
    ensures SameResults(spec, Run(env1, spec, run1).status, Run(env2, spec, run2).status)
  {
    hide IsTruthy, LegalRun, HonestRun, ReadsOnlyUpstream, Run, Consistent, FlowOutput, View;
    ControllerIsConsistent(env1, answer, spec, run1);
    ControllerIsConsistent(env2, answer, spec, run2);
    FinishedFlowsAgree(env1.engine, answer, spec, Run(env1, spec, run1).status.steps,
                       Run(env2, spec, run2).status.steps);
  }

  /** So do two local runs that end Succeeded. */
  lemma LocalRunsGiveTheSameOutput(env1: LocalEnv, env2: LocalEnv, answer: Answer, spec: FlowSpec, n1: nat, n2: nat)
    requires UniqueNames(spec) && LoopFree(spec) && Dag.ValidDag(spec)
    requires env1.engine == env2.engine && ReadsOnlyUpstream(env1.engine, spec)
    requires EveryResultArrives(env1) && Deterministic(env1, answer, spec)
    requires EveryResultArrives(env2) && Deterministic(env2, answer, spec)
    requires LocalRun(env1, spec, FRESH_STATUS, n1).status.phase.FlowSucceeded?
    requires LocalRun(env2, spec, FRESH_STATUS, n2).status.phase.FlowSucceeded?
    ensures SameResults(spec, LocalRun(env1, spec, FRESH_STATUS, n1).status,
                        LocalRun(env2, spec, FRESH_STATUS, n2).status)
  {
    hide IsTruthy, LocalRun, ReadsOnlyUpstream, Deterministic, Consistent, FlowOutput, View;
    ExecutorIsConsistent(env1, answer, spec, n1);
    ExecutorIsConsistent(env2, answer, spec, n2);
    FinishedFlowsAgree(env1.engine, answer, spec, LocalRun(env1, spec, FRESH_STATUS, n1).status.steps,
                       LocalRun(env2, spec, FRESH_STATUS, n2).status.steps);
  }

  /** A flow that succeeds under both drivers has the same verdict and output for every step, and the
      same flow output. */
  lemma DriversGiveTheSameOutput(cenv: Env, lenv: LocalEnv, answer: Answer, spec: FlowSpec, events: seq<Event>, n: nat)
    requires UniqueNames(spec) && LoopFree(spec) && Dag.ValidDag(spec)
    requires cenv.engine == lenv.engine && ReadsOnlyUpstream(cenv.engine, spec)
    requires FreshIds(cenv) && LegalRun(cenv, spec, events) && HonestRun(cenv, answer, spec, events)
    requires EveryResultArrives(lenv) && Deterministic(lenv, answer, spec)
    requires Run(cenv, spec, events).status.phase.FlowSucceeded?
    requires LocalRun(lenv, spec, FRESH_STATUS, n).status.phase.FlowSucceeded?
    ensures SameResults(spec, Run(cenv, spec, events).status, LocalRun(lenv, spec, FRESH_STATUS, n).status)
  {
    hide IsTruthy, LegalRun, HonestRun, LocalRun, ReadsOnlyUpstream, Deterministic, Run, Consistent, FlowOutput, View;
    ControllerIsConsistent(cenv, answer, spec, events);
    ExecutorIsConsistent(lenv, answer, spec, n);
    FinishedFlowsAgree(cenv.engine, answer, spec, Run(cenv, spec, events).status.steps,
                       LocalRun(lenv, spec, FRESH_STATUS, n).status.steps);
  }
}

/** Progress of the controller: it does not get stuck, and a run has a bounded number of passes that
    have anything to do. */
module ControllerProgress {
  import opened FlowTypes
  import opened Templates
  import opened FlowLogic
  import opened StepMeaning
  import opened Controller
  import opened ControllerRuns
  import opened ControllerSafety
  import Dag

  // --- No deadlock ----------------------------------------------------------------------------

  /** Following pending dependencies downwards ends at a pending step without any. */
  lemma FrontierStep(spec: FlowSpec, rank: map<string, nat>, steps: seq<StepStatus>, i: nat) returns (r: nat)
    requires Dag.StepRanks(spec, rank) && |steps| == |spec.steps| && i < |steps| && steps[i].phase.Pending?
    ensures r < |steps| && steps[r].phase.Pending?
    ensures forall j :: 0 <= j < |steps| && DependsOn(spec, r, j) ==> !steps[j].phase.Pending?
    decreases rank[spec.steps[i].name]
  {
    if j :| 0 <= j < |steps| && DependsOn(spec, i, j) && steps[j].phase.Pending? {
      r := FrontierStep(spec, rank, steps, j);
    } else {
      r := i;
    }
  }

  /** A pending step whose dependencies are all done is taken in the round. */
  lemma ReadyStepIsTaken(env: Env, spec: FlowSpec, b: Board, ix: map<string, nat>, data: TemplateData,
                         clock: nat -> Time, i: nat)
    requires Faithful(spec, ix) && Pointers(ix, b.steps) && Mirrors(spec, b.steps) && i < |spec.steps|
    requires Dag.DependenciesKnown(spec) && b.steps[i].phase.Pending?
    requires forall j :: 0 <= j < |spec.steps| && DependsOn(spec, i, j) ==> b.steps[j].phase.Done()
    ensures !SubmittedUpTo(env, spec, b, ix, data, clock, |spec.steps|).steps[i].phase.Pending?
  {
    hide IsTruthy, SubmittedUpTo, ResolvePrompt;
    forall d | d in spec.steps[i].dependsOn
      ensures DepDone(d, b.steps, ix)
    {
      assert Dag.KnownName(spec, d);
      var j :| 0 <= j < |spec.steps| && spec.steps[j].name == d;
      assert DependsOn(spec, i, j);
    }
    DepsStayDone(env, spec, b, ix, data, clock, i);
    SubmitFate(env, spec, b, ix, data, clock, i);
  }

  /** Parsing and re-arming start no step. */
  lemma StillNoneRunning(env: Env, spec: FlowSpec, s: Sys, clk: PassClock)
    requires UniqueNames(spec) && StatusOk(env, spec, s)
    requires forall i :: 0 <= i < |PassOf(env, spec, s, clk).collected| ==>
               !PassOf(env, spec, s, clk).collected[i].phase.Running?
    ensures var t := PassOf(env, spec, s, clk);
            && Faithful(spec, t.ix) && Mirrors(spec, t.looped)
            && t.board == SubmittedUpTo(env, spec, Board(t.looped, s.stream), t.ix, t.data, clk.submit, |spec.steps|)
            && forall i :: 0 <= i < |t.looped| ==> !t.looped[i].phase.Running?
  {
    hide IsTruthy, SubmittedUpTo, PhaseUpdated, StepsOk, ParsedJson, HasSchema, DataOf, StatusByName,
      CollectStep, Submissions, ParseAll, Collected, LoopsEvaluated;
    StatusMirrors(env, spec, s);
    PassPointwise(env, spec, s.status, s.stream, s.results, 0, clk);
  }

  /** A pass of a validated flow in which no step is left running after results were collected ends
      the flow or moves a step out of Pending, whatever the order of the steps in the spec. */
  lemma NoDeadlock(env: Env, spec: FlowSpec, s: Sys, clk: PassClock) returns (moved: nat)
    requires UniqueNames(spec) && Dag.ValidDag(spec) && StatusOk(env, spec, s) && !s.status.phase.Terminal()
    requires forall i :: 0 <= i < |PassOf(env, spec, s, clk).collected| ==>
               !PassOf(env, spec, s, clk).collected[i].phase.Running?
    ensures var t := PassOf(env, spec, s, clk);
            || t.final.phase.Terminal()
            || (moved < |t.looped| && t.looped[moved].phase.Pending? && !t.final.steps[moved].phase.Pending?)
  {
    hide IsTruthy, Pass, SubmittedUpTo, StatusOk;
    moved := 0;
    var t := PassOf(env, spec, s, clk);
    StillNoneRunning(env, spec, s, clk);
    if i :| 0 <= i < |spec.steps| && t.looped[i].phase.Pending? {
      var rank := Dag.ValidDagRank(spec);
      moved := FrontierStep(spec, rank, t.looped, i);
      if j :| 0 <= j < |spec.steps| && t.looped[j].phase.Failed? {
        SettledIsTerminal(env, spec, s, clk, t, j);
      } else {
        ReadyStepIsTaken(env, spec, Board(t.looped, s.stream), t.ix, t.data, clk.submit, moved);
      }
    } else {
      SettledIsTerminal(env, spec, s, clk, t, 0);
    }
  }

  lemma SettledIsTerminal(env: Env, spec: FlowSpec, s: Sys, clk: PassClock, t: PassTrace, j: nat)
    requires t == PassOf(env, spec, s, clk)
    requires Faithful(spec, t.ix) && Mirrors(spec, t.looped)
    requires || (j < |spec.steps| && t.looped[j].phase.Failed?)
             || AllSettled(t.looped)
    ensures t.final.phase.Terminal()
  {
    hide IsTruthy, SubmittedUpTo, ResolvePrompt, LoopsEvaluated, ParseAll, Collected, DataOf, StatusByName,
      PhaseUpdated;
    var b := Board(t.looped, s.stream);
    forall i | 0 <= i < |spec.steps| && !t.looped[i].phase.Pending?
      ensures t.board.steps[i] == t.looped[i]
    {
      SubmitFate(env, spec, b, t.ix, t.data, clk.submit, i);
    }
    PhaseMeaning(env.engine, spec, t.init.(steps := t.board.steps), t.data, clk.finish);
  }

  // --- A measure ------------------------------------------------------------------------------

  function PhaseWeight(phase: StepPhase): (w: nat) {
    match phase
    case Pending => 2
    case Running => 1
    case _ => 0
  }

  /** What a step can still cause: three units for each repetition left, and its current phase. */
  function Weight(step: Step, st: StepStatus): (w: int) {
    3 * (Repetitions(step) - st.iterations) + PhaseWeight(st.phase)
  }

  function Measure(spec: FlowSpec, steps: seq<StepStatus>, n: nat): (m: int)
    requires n <= |steps| && n <= |spec.steps|
  {
    if n == 0 then 0 else Measure(spec, steps, n - 1) + Weight(spec.steps[n - 1], steps[n - 1])
  }

  /** The measure of a flow before it starts: computable from the spec alone. */
  function Bound(spec: FlowSpec, n: nat): (m: nat)
    requires n <= |spec.steps|
  {
    if n == 0 then 0 else Bound(spec, n - 1) + 3 * Repetitions(spec.steps[n - 1]) + 2
  }

  function MeasureLeft(spec: FlowSpec, st: FlowStatus): (m: int)
    requires st.phase.Unset? || |st.steps| == |spec.steps|
  {
    if st.phase.Unset? then Bound(spec, |spec.steps|) else Measure(spec, st.steps, |spec.steps|)
  }

  lemma {:induction false} MeasureFalls(spec: FlowSpec, a: seq<StepStatus>, b: seq<StepStatus>, n: nat, moved: nat)
    requires n <= |a| == |b| == |spec.steps|
    requires forall i :: 0 <= i < n ==> Weight(spec.steps[i], b[i]) <= Weight(spec.steps[i], a[i])
    ensures Measure(spec, b, n) <= Measure(spec, a, n)
    ensures moved < n && Weight(spec.steps[moved], b[moved]) < Weight(spec.steps[moved], a[moved]) ==>
              Measure(spec, b, n) < Measure(spec, a, n)
  {
    if n > 0 {
      MeasureFalls(spec, a, b, n - 1, moved);
    }
  }

  lemma {:induction false} MeasureIsNatural(spec: FlowSpec, steps: seq<StepStatus>, n: nat)
    requires n <= |steps| == |spec.steps|
    requires forall i :: 0 <= i < n ==> steps[i].iterations <= EffectiveMax(spec.steps[i])
    ensures Measure(spec, steps, n) >= 0
  {
    if n > 0 {
      MeasureIsNatural(spec, steps, n - 1);
    }
  }

  lemma {:induction false} MeasureAtStart(spec: FlowSpec, n: nat)
    requires n <= |spec.steps|
    ensures Measure(spec, InitialSteps(spec), n) == Bound(spec, n)
  {
    if n > 0 {
      MeasureAtStart(spec, n - 1);
    }
  }

  /** What collecting found for step i. */
  ghost predicate ResultFound(t: PassTrace, i: nat)
    requires |t.init.steps| == |t.collected|
  {
    i < |t.collected| && t.init.steps[i].phase.Running? && t.collected[i] != t.init.steps[i]
  }

  /** Whatever submission makes of a record after the loops, the record is not heavier than before. */
  lemma StagesLighten(env: Env, spec: FlowSpec, s: Sys, clk: PassClock, i: nat, r: StepStatus)
    requires UniqueNames(spec) && StatusOk(env, spec, s) && i < |spec.steps| == |PassOf(env, spec, s, clk).looped|
    requires Submitted(PassOf(env, spec, s, clk).looped[i], r, clk.submit(i))
    ensures var t := PassOf(env, spec, s, clk);
            && |t.init.steps| == |spec.steps|
            && Weight(spec.steps[i], r) <= Weight(spec.steps[i], t.init.steps[i])
            && (ResultFound(t, i) || (t.looped[i].phase.Pending? && !r.phase.Pending?) ==>
                  Weight(spec.steps[i], r) < Weight(spec.steps[i], t.init.steps[i]))
  {
    hide IsTruthy, Pass, StatusOk, ParsedJson, HasSchema, CollectStep, RepetitionDue;
    var t := PassOf(env, spec, s, clk);
    PassStory(env, spec, s, clk, i);
    CollectAdvances(t.init.steps[i], s.results, clk.collect);
    if RepetitionDue(env.engine, spec.steps[i], t.parsed[i], t.data) {
      DueHasSucceeded(env.engine, spec.steps[i], t.parsed[i], t.data);
    }
  }

  /** No pass increases the weight of a step; collecting a result or leaving Pending decreases it. */
  lemma PassLightens(env: Env, spec: FlowSpec, s: Sys, clk: PassClock, i: nat)
    requires UniqueNames(spec) && StatusOk(env, spec, s) && i < |spec.steps|
    ensures var t := PassOf(env, spec, s, clk);
            && |t.init.steps| == |spec.steps|
            && Weight(spec.steps[i], t.final.steps[i]) <= Weight(spec.steps[i], t.init.steps[i])
            && (ResultFound(t, i) || (t.looped[i].phase.Pending? && !t.final.steps[i].phase.Pending?) ==>
                  Weight(spec.steps[i], t.final.steps[i]) < Weight(spec.steps[i], t.init.steps[i]))
  {
    hide IsTruthy, Pass, StatusOk, Weight;
    PassStory(env, spec, s, clk, i);
    StagesLighten(env, spec, s, clk, i, PassOf(env, spec, s, clk).final.steps[i]);
  }

  /** A pass has something to do when no step is running or a running step's result is there. */
  ghost predicate Productive(env: Env, spec: FlowSpec, s: Sys, clk: PassClock) {
    var t := PassOf(env, spec, s, clk);
    || (forall i :: 0 <= i < |t.init.steps| ==> !t.init.steps[i].phase.Running?)
    || (exists i :: 0 <= i < |t.init.steps| && ResultFound(t, i))
  }

  lemma StartMeasure(env: Env, spec: FlowSpec, s: Sys, clk: PassClock)
    requires StatusOk(env, spec, s)
    ensures |PassOf(env, spec, s, clk).init.steps| == |spec.steps|
    ensures s.status.phase.Unset? || |s.status.steps| == |spec.steps|
    ensures MeasureLeft(spec, s.status) == Measure(spec, PassOf(env, spec, s, clk).init.steps, |spec.steps|)
  {
    hide IsTruthy, SubmittedUpTo, PhaseUpdated, ParseAll, LoopsEvaluated, DataOf, StatusByName, StepsOk, CollectStep,
      Submissions, Measure, Bound;
    StatusMirrors(env, spec, s);
    MeasureAtStart(spec, |spec.steps|);
  }

  /** A productive pass that does not end the flow strictly decreases the measure. */
  lemma ProductivePassDecreases(env: Env, spec: FlowSpec, s: Sys, clk: PassClock)
    requires UniqueNames(spec) && Dag.ValidDag(spec) && StatusOk(env, spec, s) && !s.status.phase.Terminal()
    ensures var t := PassOf(env, spec, s, clk);
            && |t.init.steps| == |t.final.steps| == |spec.steps|
            && Measure(spec, t.final.steps, |spec.steps|) <= Measure(spec, t.init.steps, |spec.steps|)
            && (Productive(env, spec, s, clk) && !t.final.phase.Terminal() ==>
                  Measure(spec, t.final.steps, |spec.steps|) < Measure(spec, t.init.steps, |spec.steps|))
  {
    hide IsTruthy, Pass, StatusOk, Weight, Measure;
    var t := PassOf(env, spec, s, clk);
    StartMeasure(env, spec, s, clk);
    forall i | 0 <= i < |spec.steps|
      ensures Weight(spec.steps[i], t.final.steps[i]) <= Weight(spec.steps[i], t.init.steps[i])
    {
      PassLightens(env, spec, s, clk, i);
    }
    var moved := MovedStep(env, spec, s, clk);
    if moved < |spec.steps| {
      PassLightens(env, spec, s, clk, moved);
    }
    MeasureFalls(spec, t.init.steps, t.final.steps, |spec.steps|, moved);
  }

  lemma MovedStep(env: Env, spec: FlowSpec, s: Sys, clk: PassClock) returns (moved: nat)
    requires UniqueNames(spec) && Dag.ValidDag(spec) && StatusOk(env, spec, s) && !s.status.phase.Terminal()
    ensures var t := PassOf(env, spec, s, clk);
            Productive(env, spec, s, clk) && !t.final.phase.Terminal() ==>
              && moved < |t.looped|
              && (ResultFound(t, moved)
                  || (t.looped[moved].phase.Pending? && !t.final.steps[moved].phase.Pending?))
  {
    hide IsTruthy, Pass, StatusOk;
    var t := PassOf(env, spec, s, clk);
    moved := 0;
    if i: nat :| i < |t.init.steps| && ResultFound(t, i) {
      moved := i;
    } else if forall i :: 0 <= i < |t.init.steps| ==> !t.init.steps[i].phase.Running? {
      forall i | 0 <= i < |t.collected| ensures !t.collected[i].phase.Running? {
        NotRunningNotCollected(env, spec, s, clk, i);
      }
      moved := NoDeadlock(env, spec, s, clk);
    }
  }

  lemma NotRunningNotCollected(env: Env, spec: FlowSpec, s: Sys, clk: PassClock, i: nat)
    requires i < |PassOf(env, spec, s, clk).collected| && !PassOf(env, spec, s, clk).init.steps[i].phase.Running?
    ensures PassOf(env, spec, s, clk).collected[i] == PassOf(env, spec, s, clk).init.steps[i]
  {
    hide IsTruthy, SubmittedUpTo, PhaseUpdated, ParseAll, LoopsEvaluated, DataOf, StatusByName;
  }

  /** How many passes of a run got through to the flow and had something to do. */
  ghost function ProductivePasses(env: Env, spec: FlowSpec, events: seq<Event>): (n: nat) {
    if events == [] then 0
    else
      var before := events[..|events| - 1];
      ProductivePasses(env, spec, before) +
      match events[|events| - 1]
      case Reconcile(gate, clk) =>
        var s := Run(env, spec, before);
        if Opens(spec, s.status, gate) && Productive(env, spec, s, clk) then 1 else 0
      case _ => 0
  }

  ghost predicate PassesPaidFor(env: Env, spec: FlowSpec, events: seq<Event>) {
    var st := Run(env, spec, events).status;
    && (st.phase.Unset? || |st.steps| == |spec.steps|)
    && MeasureLeft(spec, st) >= 0
    && ProductivePasses(env, spec, events) + MeasureLeft(spec, st)
       <= Bound(spec, |spec.steps|) + (if st.phase.Terminal() then 1 else 0)
  }

  lemma PassIsPaidFor(env: Env, spec: FlowSpec, events: seq<Event>, gate: Gate, clk: PassClock)
    requires UniqueNames(spec) && FreshIds(env) && LegalRun(env, spec, events)
    requires Monotone(clk, Run(env, spec, events).clock)
    requires Opens(spec, Run(env, spec, events).status, gate)
    requires PassesPaidFor(env, spec, events)
    ensures var s := Run(env, spec, events);
            var f := PassOf(env, spec, s, clk).final;
            && !f.phase.Unset? && |f.steps| == |spec.steps|
            && 0 <= MeasureLeft(spec, f) <= MeasureLeft(spec, s.status)
            && (Productive(env, spec, s, clk) && !f.phase.Terminal() ==>
                  MeasureLeft(spec, f) < MeasureLeft(spec, s.status))
  {
    hide IsTruthy, Pass, StatusOk, Measure, Bound, Productive, StepsOk;
    var s := Run(env, spec, events);
    RunInvariant(env, spec, events);
    ProductivePassDecreases(env, spec, s, clk);
    StartMeasure(env, spec, s, clk);
    PhaseAfterPass(env, spec, s, 0, clk);
    PassKeepsSteps(env, spec, s, 0, clk);
    var t := PassOf(env, spec, s, clk);
    forall i | 0 <= i < |spec.steps| ensures t.final.steps[i].iterations <= EffectiveMax(spec.steps[i]) {
      StepOfBoard(env, spec, t.board, clk.finish, i);
    }
    MeasureIsNatural(spec, t.final.steps, |spec.steps|);
  }

  /** A pass cut short does not raise the measure either. */
  lemma CutShortIsPaidFor(env: Env, spec: FlowSpec, events: seq<Event>, gate: Gate, clk: PassClock, k: nat)
    requires UniqueNames(spec) && FreshIds(env) && LegalRun(env, spec, events)
    requires Monotone(clk, Run(env, spec, events).clock)
    requires Opens(spec, Run(env, spec, events).status, gate)
    requires PassesPaidFor(env, spec, events)
    ensures var s := Run(env, spec, events);
            var f := CutShort(env, spec, s, PassOf(env, spec, s, clk), clk, k).status;
            && !f.phase.Unset? && !f.phase.Terminal() && |f.steps| == |spec.steps|
            && 0 <= MeasureLeft(spec, f) <= MeasureLeft(spec, s.status)
  {
    hide IsTruthy, Pass, StatusOk, Measure, Bound, Weight, StepsOk;
    var s := Run(env, spec, events);
    var t := PassOf(env, spec, s, clk);
    RunInvariant(env, spec, events);
    OpensWhenNotTerminal(spec, s.status, gate);
    StartMeasure(env, spec, s, clk);
    StartOfPass(env, spec, s, clk);
    InterruptedStory(env, spec, s, clk, k);
    PassKeepsSteps(env, spec, s, 0, clk);
    var f := CutShort(env, spec, s, t, clk, k).status;
    forall i | 0 <= i < |spec.steps|
      ensures Weight(spec.steps[i], f.steps[i]) <= Weight(spec.steps[i], t.init.steps[i])
      ensures f.steps[i].iterations <= EffectiveMax(spec.steps[i])
    {
      PassLightens(env, spec, s, clk, i);
      StagesLighten(env, spec, s, clk, i, t.looped[i]);
      StepOfBoard(env, spec, t.board, clk.finish, i);
      StepOfBoard(env, spec, Board(t.looped, s.stream), clk.finish, i);
    }
    MeasureFalls(spec, t.init.steps, f.steps, |spec.steps|, |spec.steps|);
    MeasureIsNatural(spec, f.steps, |spec.steps|);
  }

  lemma {:induction false} EveryPassIsPaidFor(env: Env, spec: FlowSpec, events: seq<Event>)
    requires UniqueNames(spec) && FreshIds(env) && LegalRun(env, spec, events)
    ensures PassesPaidFor(env, spec, events)
  {
    hide IsTruthy, Pass, StatusOk, Measure, Bound, Productive, CutShort;
    if events != [] {
      var before := events[..|events| - 1];
      EveryPassIsPaidFor(env, spec, before);
      match events[|events| - 1]
      case Reconcile(gate, clk) =>
        if Opens(spec, Run(env, spec, before).status, gate) {
          PassIsPaidFor(env, spec, before, gate, clk);
        }
      case EnqueueFails(gate, clk, k) =>
        if Opens(spec, Run(env, spec, before).status, gate) {
          CutShortIsPaidFor(env, spec, before, gate, clk, k);
        }
      case _ =>
    }
  }

  /** A run has at most 1 + sum of (3 * cap + 2) productive passes; once it has had more than the
      sum, the flow is finished. */
  lemma BoundedRuns(env: Env, spec: FlowSpec, events: seq<Event>)
    requires UniqueNames(spec) && FreshIds(env) && LegalRun(env, spec, events)
    ensures ProductivePasses(env, spec, events) <= Bound(spec, |spec.steps|) + 1
    ensures ProductivePasses(env, spec, events) > Bound(spec, |spec.steps|) ==>
              Run(env, spec, events).status.phase.Terminal()
  {
    hide Bound, Measure, ProductivePasses, Run;
    EveryPassIsPaidFor(env, spec, events);
  }
}

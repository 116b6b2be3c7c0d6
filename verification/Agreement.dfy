/** Schedule independence: whatever the driver and the order of arrival, finished steps of a loop-free
    flow have the same verdict and output. */
module Agreement {
  import opened FlowTypes
  import opened Templates
  import opened FlowLogic
  import opened ControllerSafety
  import Dag

  /** The reply a successful agent gives to a step's prompt. */
  type Answer = (Step, string) -> string

  // --- What a step may read -------------------------------------------------------------------

  /** A set of names closed under dependencies. */
  ghost predicate ClosedUnderDeps(spec: FlowSpec, names: set<string>) {
    forall j, d :: 0 <= j < |spec.steps| && spec.steps[j].name in names && d in spec.steps[j].dependsOn ==> d in names
  }

  /** The names include everything upstream of step i. */
  ghost predicate CoversUpstream(spec: FlowSpec, i: nat, names: set<string>)
    requires i < |spec.steps|
  {
    ClosedUnderDeps(spec, names) && forall d :: d in spec.steps[i].dependsOn ==> d in names
  }

  ghost predicate SameOn(names: set<string>, a: TemplateData, b: TemplateData) {
    a.input == b.input &&
    forall n :: n in names ==> (n in a.steps <==> n in b.steps) && (n in a.steps ==> a.steps[n] == b.steps[n])
  }

  predicate TemplateOf(step: Step, t: string) {
    t == step.ifCondition || exists k :: k in step.inputs && step.inputs[k] == t
  }

  /** The condition and the inputs of a step read only the flow input and the steps upstream of it:
      they resolve alike under any two data that agree on these. */
  ghost predicate ReadsOnlyUpstream(engine: Engine, spec: FlowSpec) {
    forall i: nat, names, a, b, t |
      i < |spec.steps| && CoversUpstream(spec, i, names) && SameOn(names, a, b) && TemplateOf(spec.steps[i], t) ::
      engine.resolve(t, a) == engine.resolve(t, b)
  }

  lemma StepReadsUpstream(engine: Engine, spec: FlowSpec, i: nat, names: set<string>, a: TemplateData, b: TemplateData)
    requires ReadsOnlyUpstream(engine, spec) && i < |spec.steps| && CoversUpstream(spec, i, names)
    requires SameOn(names, a, b)
    ensures SkipsStep(engine, spec.steps[i], a) == SkipsStep(engine, spec.steps[i], b)
    ensures ResolvePrompt(engine, spec.steps[i], a) == ResolvePrompt(engine, spec.steps[i], b)
  {
    hide IsTruthy, CoversUpstream, SameOn;
    var step := spec.steps[i];
    assert TemplateOf(step, step.ifCondition);
    forall k | k in step.inputs
      ensures engine.resolve(step.inputs[k], a) == engine.resolve(step.inputs[k], b)
    {
      assert TemplateOf(step, step.inputs[k]);
    }
    if forall k :: k in step.inputs ==> engine.resolve(step.inputs[k], a).Some? {
      assert (map k | k in step.inputs :: engine.resolve(step.inputs[k], a).value)
          == (map k | k in step.inputs :: engine.resolve(step.inputs[k], b).value);
    }
  }

  // --- Consistent statuses --------------------------------------------------------------------

  /** The template data that a list of records gives rise to. */
  ghost function View(engine: Engine, spec: FlowSpec, steps: seq<StepStatus>): (d: TemplateData) {
    DataOf(engine, spec, steps, StatusByName(steps))
  }

  /** The JSON kept for a reply to step i. */
  ghost function JsonOf(engine: Engine, spec: FlowSpec, i: nat, output: string): (r: string)
    requires i < |spec.steps|
  {
    if HasSchema(spec, spec.steps[i].name) && output != "" then ParsedJson(engine, output) else ""
  }

  /** The record of step i is what evaluating the step under the given data says. */
  ghost predicate Justified(engine: Engine, answer: Answer, spec: FlowSpec, i: nat, st: StepStatus, data: TemplateData)
    requires i < |spec.steps|
  {
    && (!st.phase.Succeeded? ==> st.output == "" && st.outputJson == "")
    && (st.phase.Skipped? ==> SkipsStep(engine, spec.steps[i], data))
    && (st.phase.Succeeded? ==>
          && !SkipsStep(engine, spec.steps[i], data)
          && st.output == answer(spec.steps[i], PromptOrEmpty(engine, spec.steps[i], data))
          && st.outputJson == JsonOf(engine, spec, i, st.output))
  }

  /** Started steps have their dependencies done, and every record is justified by the status itself. */
  ghost predicate Consistent(engine: Engine, answer: Answer, spec: FlowSpec, steps: seq<StepStatus>) {
    && Mirrors(spec, steps) && DepsClosed(spec, steps)
    && (forall i :: 0 <= i < |steps| ==> Justified(engine, answer, spec, i, steps[i], View(engine, spec, steps)))
  }

  /** Names of the steps that are done. */
  ghost function DoneNames(spec: FlowSpec, steps: seq<StepStatus>): (names: set<string>)
    requires |steps| == |spec.steps|
  {
    set j | 0 <= j < |steps| && steps[j].phase.Done() :: spec.steps[j].name
  }

  /** What is upstream of a step whose dependencies are done is done as well. */
  lemma UpstreamIsDone(spec: FlowSpec, steps: seq<StepStatus>, i: nat)
    requires UniqueNames(spec) && Dag.DependenciesKnown(spec) && DepsClosed(spec, steps) && i < |spec.steps|
    requires forall j :: 0 <= j < |spec.steps| && DependsOn(spec, i, j) ==> steps[j].phase.Done()
    ensures CoversUpstream(spec, i, DoneNames(spec, steps))
  {
    forall j, d | 0 <= j < |spec.steps| && d in spec.steps[j].dependsOn
                  && (j == i || spec.steps[j].name in DoneNames(spec, steps))
      ensures d in DoneNames(spec, steps)
    {
      assert Dag.KnownName(spec, d);
      var k :| 0 <= k < |spec.steps| && spec.steps[k].name == d;
      assert DependsOn(spec, j, k);
      if j != i {
        var m :| 0 <= m < |steps| && steps[m].phase.Done() && spec.steps[m].name == spec.steps[j].name;
        assert m == j;
      }
    }
  }

  lemma ViewEntry(engine: Engine, spec: FlowSpec, steps: seq<StepStatus>, j: nat)
    requires UniqueNames(spec) && Mirrors(spec, steps) && j < |spec.steps|
    ensures spec.steps[j].name in View(engine, spec, steps).steps
    ensures View(engine, spec, steps).steps[spec.steps[j].name] == StepEntry(engine, steps[j])
  {
    hide StatusByName;
    UniqueNamesAreFaithful(spec, steps);
  }

  /** Done records that stay as they are look the same afterwards. */
  lemma SameView(engine: Engine, spec: FlowSpec, a: seq<StepStatus>, b: seq<StepStatus>)
    requires UniqueNames(spec) && Mirrors(spec, a) && Mirrors(spec, b)
    requires forall j :: 0 <= j < |a| && a[j].phase.Done() ==> StepEntry(engine, b[j]) == StepEntry(engine, a[j])
    ensures SameOn(DoneNames(spec, a), View(engine, spec, a), View(engine, spec, b))
  {
    hide DataOf, StatusByName, StepEntry;
    forall n | n in DoneNames(spec, a)
      ensures n in View(engine, spec, a).steps && n in View(engine, spec, b).steps
      ensures View(engine, spec, a).steps[n] == View(engine, spec, b).steps[n]
    {
      var j :| 0 <= j < |a| && a[j].phase.Done() && spec.steps[j].name == n;
      ViewEntry(engine, spec, a, j);
      ViewEntry(engine, spec, b, j);
    }
    SameInput(engine, spec, a, b);
  }

  lemma SameInput(engine: Engine, spec: FlowSpec, a: seq<StepStatus>, b: seq<StepStatus>)
    ensures View(engine, spec, a).input == View(engine, spec, b).input
  {
  }

  lemma ViewKeys(engine: Engine, spec: FlowSpec, steps: seq<StepStatus>)
    requires Mirrors(spec, steps)
    ensures View(engine, spec, steps).steps.Keys == set j | 0 <= j < |spec.steps| :: spec.steps[j].name
  {
    var names := StatusNames(steps);
    forall n | n in names ensures n in (set j | 0 <= j < |spec.steps| :: spec.steps[j].name) {
      var j :| 0 <= j < |names| && names[j] == n;
    }
    forall j | 0 <= j < |spec.steps| ensures spec.steps[j].name in names {
      assert names[j] == spec.steps[j].name;
    }
  }

  /** Records with the same entries make the same data. */
  lemma EqualViews(engine: Engine, spec: FlowSpec, a: seq<StepStatus>, b: seq<StepStatus>)
    requires UniqueNames(spec) && Mirrors(spec, a) && Mirrors(spec, b)
    requires forall j :: 0 <= j < |a| ==> StepEntry(engine, b[j]) == StepEntry(engine, a[j])
    ensures View(engine, spec, a) == View(engine, spec, b)
  {
    hide DataOf, StatusByName, StepEntry;
    ViewKeys(engine, spec, a);
    ViewKeys(engine, spec, b);
    forall n | n in View(engine, spec, a).steps
      ensures View(engine, spec, a).steps[n] == View(engine, spec, b).steps[n]
    {
      var j :| 0 <= j < |spec.steps| && spec.steps[j].name == n;
      ViewEntry(engine, spec, a, j);
      ViewEntry(engine, spec, b, j);
    }
    SameInput(engine, spec, a, b);
    assert View(engine, spec, a).steps == View(engine, spec, b).steps;
  }

  /** A justified record stays justified while the steps upstream of it keep their entries. */
  lemma StaysJustified(engine: Engine, answer: Answer, spec: FlowSpec, i: nat, st: StepStatus, names: set<string>,
                       a: TemplateData, b: TemplateData)
    requires ReadsOnlyUpstream(engine, spec) && i < |spec.steps| && Justified(engine, answer, spec, i, st, a)
    requires CoversUpstream(spec, i, names) && SameOn(names, a, b)
    ensures Justified(engine, answer, spec, i, st, b)
  {
    hide SkipsStep, ResolvePrompt, JsonOf, CoversUpstream, SameOn, ReadsOnlyUpstream;
    StepReadsUpstream(engine, spec, i, names, a, b);
  }

  // --- Two consistent statuses agree ----------------------------------------------------------

  ghost predicate SameVerdict(a: StepStatus, b: StepStatus) {
    a.phase == b.phase && a.output == b.output && a.outputJson == b.outputJson
  }

  /** Steps done in both statuses and of a rank below r. */
  ghost function DoneBelow(spec: FlowSpec, rank: map<string, nat>, a: seq<StepStatus>, b: seq<StepStatus>, r: nat)
    : (names: set<string>)
    requires Dag.StepRanks(spec, rank) && |a| == |b| == |spec.steps|
  {
    set j | 0 <= j < |a| && a[j].phase.Done() && b[j].phase.Done() && rank[spec.steps[j].name] < r :: spec.steps[j].name
  }

  lemma DoneBelowCovers(spec: FlowSpec, rank: map<string, nat>, a: seq<StepStatus>, b: seq<StepStatus>, i: nat)
    requires UniqueNames(spec) && Dag.StepRanks(spec, rank) && i < |spec.steps|
    requires DepsClosed(spec, a) && DepsClosed(spec, b) && a[i].phase.Done() && b[i].phase.Done()
    ensures CoversUpstream(spec, i, DoneBelow(spec, rank, a, b, rank[spec.steps[i].name]))
  {
    var r := rank[spec.steps[i].name];
    var names := DoneBelow(spec, rank, a, b, r);
    forall j, d | 0 <= j < |spec.steps| && d in spec.steps[j].dependsOn && (j == i || spec.steps[j].name in names)
      ensures d in names
    {
      assert Dag.KnownName(spec, d);
      var k :| 0 <= k < |spec.steps| && spec.steps[k].name == d;
      assert DependsOn(spec, j, k);
      if j != i {
        var m :| 0 <= m < |a| && a[m].phase.Done() && b[m].phase.Done() && rank[spec.steps[m].name] < r
                 && spec.steps[m].name == spec.steps[j].name;
        assert m == j;
      }
    }
  }

  /** Any two consistent statuses of a validated flow agree on every step done in both. */
  lemma {:induction false} ConsistentStatusesAgree(engine: Engine, answer: Answer, spec: FlowSpec,
                                                   rank: map<string, nat>,
                                                   a: seq<StepStatus>, b: seq<StepStatus>, i: nat)
    requires UniqueNames(spec) && Dag.StepRanks(spec, rank) && ReadsOnlyUpstream(engine, spec)
    requires Consistent(engine, answer, spec, a) && Consistent(engine, answer, spec, b)
    requires i < |spec.steps| && a[i].phase.Done() && b[i].phase.Done()
    ensures SameVerdict(a[i], b[i])
    decreases rank[spec.steps[i].name]
  {
    hide IsTruthy, ResolvePrompt, ReadsOnlyUpstream, JsonOf, DataOf, StatusByName, StepEntry, SkipsStep, CoversUpstream,
      DepsClosed;
    var names := DoneBelow(spec, rank, a, b, rank[spec.steps[i].name]);
    var va, vb := View(engine, spec, a), View(engine, spec, b);
    forall n | n in names
      ensures n in va.steps && n in vb.steps && va.steps[n] == vb.steps[n]
    {
      var j :| 0 <= j < |a| && a[j].phase.Done() && b[j].phase.Done()
               && rank[spec.steps[j].name] < rank[spec.steps[i].name] && spec.steps[j].name == n;
      ConsistentStatusesAgree(engine, answer, spec, rank, a, b, j);
      ViewEntry(engine, spec, a, j);
      ViewEntry(engine, spec, b, j);
      SameEntry(engine, a[j], b[j]);
    }
    SameInput(engine, spec, a, b);
    assert SameOn(names, va, vb);
    DoneBelowCovers(spec, rank, a, b, i);
    StepReadsUpstream(engine, spec, i, names, va, vb);
  }

  lemma SameEntry(engine: Engine, a: StepStatus, b: StepStatus)
    requires SameVerdict(a, b)
    ensures StepEntry(engine, a) == StepEntry(engine, b)
  {
  }

  /** When every step is done in both, the whole data agree, and with them the flow output. */
  lemma FinishedFlowsAgree(engine: Engine, answer: Answer, spec: FlowSpec, a: seq<StepStatus>, b: seq<StepStatus>)
    requires UniqueNames(spec) && Dag.ValidDag(spec) && ReadsOnlyUpstream(engine, spec)
    requires Consistent(engine, answer, spec, a) && Consistent(engine, answer, spec, b)
    requires AllDone(a) && AllDone(b)
    ensures |a| == |b| == |spec.steps| && forall i :: 0 <= i < |spec.steps| ==> SameVerdict(a[i], b[i])
    ensures View(engine, spec, a) == View(engine, spec, b)
  {
    hide IsTruthy, ResolvePrompt, ReadsOnlyUpstream, Justified, View, StepEntry;
    var rank := Dag.ValidDagRank(spec);
    forall i | 0 <= i < |spec.steps|
      ensures SameVerdict(a[i], b[i]) && StepEntry(engine, b[i]) == StepEntry(engine, a[i])
    {
      ConsistentStatusesAgree(engine, answer, spec, rank, a, b, i);
      SameEntry(engine, a[i], b[i]);
    }
    EqualViews(engine, spec, a, b);
  }
}

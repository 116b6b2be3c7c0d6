/** What a pass of the controller does, in terms of templates, records, result messages and clocks, and
    what that means for every run. */
module ControllerMeaning {
  import opened FlowTypes
  import opened Templates
  import opened FlowLogic
  import opened StepMeaning
  import opened Controller
  import opened ControllerRuns
  import opened ControllerSafety
  import Dag
  import JsonExtract

  // --- Submission -----------------------------------------------------------------------------

  /** The entry is a task of this flow whose prompt was rendered under the data. */
  ghost predicate Prompted(env: Env, spec: FlowSpec, e: Entry, data: TemplateData) {
    && e.FlowTask? && e.step < |spec.steps| && e.streamKey == env.streamKey
    && Rendered(env.engine, spec.steps[e.step], data, e.prompt)
  }

  /** What a submission round makes of step i: a step that is not pending or not released is left alone;
      a false condition skips it, an input that does not resolve fails it, and otherwise its task is
      appended to the stream beyond position `from`. */
  ghost predicate SubmitOutcome(env: Env, spec: FlowSpec, before: seq<StepStatus>, after: seq<StepStatus>, i: nat,
                                data: TemplateData, now: Time, stream: seq<Entry>, from: nat)
    requires i < |spec.steps| == |before| == |after|
  {
    var step, st, r := spec.steps[i], before[i], after[i];
    if !st.phase.Pending? || !Released(spec, before, after, i) then r == st
    else if ConditionFalse(env.engine, step, data) then
      r == st.(phase := Skipped, completionTime := Some(now), message := SkippedByCondition)
    else if Unresolvable(env.engine, step, data) then
      r == st.(phase := Failed, completionTime := Some(now), message := InputTemplateError)
    else
      exists p :: from <= p < |stream| && Prompted(env, spec, stream[p], data)
        && stream[p].step == i && stream[p].iteration == st.iterations
        && r == st.(phase := Running, taskId := env.idOf(p), startTime := Some(now))
  }

  lemma SubmitMeans(env: Env, spec: FlowSpec, b: Board, ix: map<string, nat>, data: TemplateData, clock: nat -> Time,
                    i: nat)
    requires Faithful(spec, ix) && Pointers(ix, b.steps) && i < |spec.steps| && Mirrors(spec, b.steps)
    ensures var r := SubmittedUpTo(env, spec, b, ix, data, clock, |spec.steps|);
            SubmitOutcome(env, spec, b.steps, r.steps, i, data, clock(i), r.stream, |b.stream|)
  {
    hide SubmittedUpTo, ResolvePrompt, SkipsStep, DepsSucceeded, Released, Unresolvable, ConditionFalse, Rendered;
    var r := SubmittedUpTo(env, spec, b, ix, data, clock, |spec.steps|);
    var turn := SubmittedUpTo(env, spec, b, ix, data, clock, i);
    SubmitFate(env, spec, b, ix, data, clock, i);
    SubmittedNone(env, spec, b, ix, data, clock);
    SubmitPrefix(env, spec, b, ix, data, clock, 0, i);
    SubmitPrefix(env, spec, b, ix, data, clock, i, |spec.steps|);
    ReleasedIsDepsSucceeded(spec, b.steps, r.steps, turn.steps, ix, i);
    SkippingIsConditionFalse(env.engine, spec.steps[i], data);
    PromptIsRendered(env.engine, spec.steps[i], data);
    if r.steps[i].phase.Running? && b.steps[i].phase.Pending? {
      assert Prompted(env, spec, r.stream[|turn.stream|], data);
    }
  }

  /** Every task appended to the stream was prompted for a step that now runs under its ID. */
  ghost predicate AppendedOk(env: Env, spec: FlowSpec, r: Board, data: TemplateData, p: nat)
    requires p < |r.stream|
  {
    var e := r.stream[p];
    && Prompted(env, spec, e, data) && e.step < |r.steps|
    && r.steps[e.step].phase.Running? && r.steps[e.step].taskId == env.idOf(p)
  }

  lemma {:induction false} AppendedMeans(env: Env, spec: FlowSpec, b: Board, ix: map<string, nat>, data: TemplateData,
                                         clock: nat -> Time, k: nat, p: nat)
    requires Faithful(spec, ix) && Pointers(ix, b.steps) && Mirrors(spec, b.steps) && k <= |spec.steps|
    requires |b.stream| <= p < |SubmittedUpTo(env, spec, b, ix, data, clock, k).stream|
    ensures AppendedOk(env, spec, SubmittedUpTo(env, spec, b, ix, data, clock, k), data, p)
    ensures SubmittedUpTo(env, spec, b, ix, data, clock, k).stream[p].step < k
  {
    hide SubmittedUpTo, SubmitStep, Prompted, AppendedOk;
    SubmittedNone(env, spec, b, ix, data, clock);
    if k > 0 {
      var q := SubmittedUpTo(env, spec, b, ix, data, clock, k - 1);
      SubmittedUnfolds(env, spec, b, ix, data, clock, k - 1);
      SubmittedMirrors(env, spec, b, ix, data, clock, k - 1);
      SubmitTouchesOne(env, spec, q, ix, data, k - 1, clock(k - 1));
      if p < |q.stream| {
        AppendedMeans(env, spec, b, ix, data, clock, k - 1, p);
        AppendedStays(env, spec, q, SubmittedUpTo(env, spec, b, ix, data, clock, k), data, k - 1, p);
      } else {
        AppendedNow(env, spec, q, ix, data, k - 1, clock(k - 1), p);
      }
    }
  }

  lemma AppendedStays(env: Env, spec: FlowSpec, q: Board, r: Board, data: TemplateData, k: nat, p: nat)
    requires p < |q.stream| && AppendedOk(env, spec, q, data, p) && q.stream[p].step < k && q.stream <= r.stream
    requires |r.steps| == |q.steps| && forall i :: 0 <= i < |q.steps| && i != k ==> r.steps[i] == q.steps[i]
    ensures AppendedOk(env, spec, r, data, p) && r.stream[p].step < k
  {
    hide Prompted;
    assert r.stream[p] == q.stream[p];
    assert q.stream[p].FlowTask? by { PromptedTask(env, spec, q.stream[p], data); }
  }

  lemma PromptedTask(env: Env, spec: FlowSpec, e: Entry, data: TemplateData)
    requires Prompted(env, spec, e, data)
    ensures e.FlowTask? && e.step < |spec.steps|
  {
  }

  lemma AppendedNow(env: Env, spec: FlowSpec, q: Board, ix: map<string, nat>, data: TemplateData, i: nat, now: Time,
                    p: nat)
    requires Faithful(spec, ix) && Pointers(ix, q.steps) && Mirrors(spec, q.steps) && i < |spec.steps|
    requires |q.stream| <= p < |SubmitStep(env, spec, q, ix, data, i, now).stream|
    ensures var r := SubmitStep(env, spec, q, ix, data, i, now);
            AppendedOk(env, spec, r, data, p) && r.stream[p].step == i
  {
    hide SubmitStep, ResolvePrompt, SkipsStep, DepsSucceeded, Rendered, Unresolvable;
    TurnOf(env, spec, q, ix, data, i, now);
    PromptIsRendered(env.engine, spec.steps[i], data);
    StreamOfTurn(env, spec, q, ix, data, i, now);
  }

  /** A turn that launches nothing appends nothing. */
  lemma StreamOfTurn(env: Env, spec: FlowSpec, b: Board, ix: map<string, nat>, data: TemplateData, i: nat, now: Time)
    requires Faithful(spec, ix) && Pointers(ix, b.steps) && i < |spec.steps| == |b.steps|
    ensures var r := SubmitStep(env, spec, b, ix, data, i, now);
            || r.stream == b.stream
            || (b.steps[i].phase.Pending? && DepsSucceeded(spec.steps[i].dependsOn, b.steps, ix)
                && !SkipsStep(env.engine, spec.steps[i], data) && ResolvePrompt(env.engine, spec.steps[i], data).Some?)
  {
    hide ResolvePrompt, SkipsStep, DepsSucceeded;
    assert ix[spec.steps[i].name] == i;
  }

  // --- A pass ---------------------------------------------------------------------------------

  predicate Counts(m: ResultMsg) {
    m.inputTokens > 0 || m.outputTokens > 0
  }

  /** Message k is the last of the first n that carry the ID. */
  predicate LastFor(id: string, results: seq<ResultMsg>, n: nat, k: nat)
    requires n <= |results|
  {
    k < n && results[k].taskId == id && forall j :: k < j < n ==> results[j].taskId != id
  }

  /** Message k is the last of the first n that carry the ID and report tokens. */
  predicate LastCounting(id: string, results: seq<ResultMsg>, n: nat, k: nat)
    requires n <= |results|
  {
    k < n && results[k].taskId == id && Counts(results[k])
    && forall j :: k < j < n && results[j].taskId == id ==> !Counts(results[j])
  }

  /** What collecting makes of a record that waits for its task: the last result with its ID completes it,
      and its usage is that of the last one that reports tokens. */
  ghost predicate CollectOutcome(st: StepStatus, r: StepStatus, results: seq<ResultMsg>, clock: nat -> Time) {
    if !st.phase.Running? || (forall k :: 0 <= k < |results| ==> results[k].taskId != st.taskId) then r == st
    else
      && (exists k: nat :: LastFor(st.taskId, results, |results|, k)
            && r == st.(phase := Succeeded, output := results[k].result, completionTime := Some(clock(k)),
                        tokenUsage := r.tokenUsage))
      && UsageOutcome(st, r, results)
  }

  ghost predicate UsageOutcome(st: StepStatus, r: StepStatus, results: seq<ResultMsg>) {
    if forall k :: 0 <= k < |results| && results[k].taskId == st.taskId ==> !Counts(results[k])
    then r.tokenUsage == st.tokenUsage
    else
      exists k: nat :: LastCounting(st.taskId, results, |results|, k)
        && r.tokenUsage == Some(TokenUsage(results[k].inputTokens, results[k].outputTokens,
                                           results[k].inputTokens + results[k].outputTokens))
  }

  lemma {:induction false} AppliedTouches(st: StepStatus, results: seq<ResultMsg>, clock: nat -> Time, n: nat)
    requires n <= |results|
    ensures var r := Applied(st, results, clock, 0, n);
            r == st.(phase := r.phase, output := r.output, completionTime := r.completionTime,
                     tokenUsage := r.tokenUsage)
  {
    if n > 0 {
      AppliedTouches(st, results, clock, n - 1);
    }
  }

  lemma {:induction false} AppliedNone(st: StepStatus, results: seq<ResultMsg>, clock: nat -> Time, n: nat)
    requires n <= |results| && forall j :: 0 <= j < n ==> results[j].taskId != st.taskId
    ensures Applied(st, results, clock, 0, n) == st
  {
    if n > 0 {
      AppliedNone(st, results, clock, n - 1);
    }
  }

  lemma {:induction false} AppliedLast(st: StepStatus, results: seq<ResultMsg>, clock: nat -> Time, n: nat, k: nat)
    requires n <= |results| && LastFor(st.taskId, results, n, k)
    ensures var r := Applied(st, results, clock, 0, n);
            r == st.(phase := Succeeded, output := results[k].result, completionTime := Some(clock(k)),
                     tokenUsage := r.tokenUsage)
  {
    AppliedTouches(st, results, clock, n - 1);
    if k < n - 1 {
      AppliedLast(st, results, clock, n - 1, k);
    }
  }

  lemma {:induction false} AppliedUncounted(st: StepStatus, results: seq<ResultMsg>, clock: nat -> Time, n: nat)
    requires n <= |results| && forall j :: 0 <= j < n && results[j].taskId == st.taskId ==> !Counts(results[j])
    ensures Applied(st, results, clock, 0, n).tokenUsage == st.tokenUsage
  {
    if n > 0 {
      AppliedUncounted(st, results, clock, n - 1);
    }
  }

  lemma {:induction false} AppliedCounting(st: StepStatus, results: seq<ResultMsg>, clock: nat -> Time, n: nat, k: nat)
    requires n <= |results| && LastCounting(st.taskId, results, n, k)
    ensures Applied(st, results, clock, 0, n).tokenUsage ==
            Some(TokenUsage(results[k].inputTokens, results[k].outputTokens,
                            results[k].inputTokens + results[k].outputTokens))
  {
    if k < n - 1 {
      AppliedCounting(st, results, clock, n - 1, k);
    }
  }

  lemma {:induction false} SomeLastFor(id: string, results: seq<ResultMsg>, n: nat) returns (k: nat)
    requires n <= |results| && exists j :: 0 <= j < n && results[j].taskId == id
    ensures LastFor(id, results, n, k)
  {
    if results[n - 1].taskId == id {
      k := n - 1;
    } else {
      k := SomeLastFor(id, results, n - 1);
    }
  }

  lemma {:induction false} SomeLastCounting(id: string, results: seq<ResultMsg>, n: nat) returns (k: nat)
    requires n <= |results| && exists j :: 0 <= j < n && results[j].taskId == id && Counts(results[j])
    ensures LastCounting(id, results, n, k)
  {
    if results[n - 1].taskId == id && Counts(results[n - 1]) {
      k := n - 1;
    } else {
      k := SomeLastCounting(id, results, n - 1);
    }
  }

  lemma CollectMeans(st: StepStatus, results: seq<ResultMsg>, clock: nat -> Time)
    requires st.phase.Running? ==> st.taskId != ""
    ensures CollectOutcome(st, CollectStep(st, results, clock, 0, |results|), results, clock)
  {
    hide Applied, Counts;
    if st.phase.Running? {
      if forall j :: 0 <= j < |results| ==> results[j].taskId != st.taskId {
        AppliedNone(st, results, clock, |results|);
      } else {
        var k := SomeLastFor(st.taskId, results, |results|);
        AppliedLast(st, results, clock, |results|, k);
        if forall j :: 0 <= j < |results| && results[j].taskId == st.taskId ==> !Counts(results[j]) {
          AppliedUncounted(st, results, clock, |results|);
        } else {
          var m := SomeLastCounting(st.taskId, results, |results|);
          AppliedCounting(st, results, clock, |results|, m);
        }
      }
    }
  }

  // --- Stages ---------------------------------------------------------------------------------

  /** How a flow is when it starts. */
  ghost predicate Started(spec: FlowSpec, was: FlowStatus, st: FlowStatus, now: Time) {
    if !was.phase.Unset? then st == was
    else
      && st == was.(phase := FlowRunning, startTime := Some(now), ready := Some(Validated), steps := st.steps)
      && |st.steps| == |spec.steps|
      && forall i :: 0 <= i < |spec.steps| ==>
           st.steps[i] == StepStatus(spec.steps[i].name, Pending, "", "", "", None, None, NoMessage, 0, None)
  }

  lemma PassStarts(env: Env, spec: FlowSpec, s: Sys, clk: PassClock)
    requires StatusOk(env, spec, s)
    ensures var t := PassOf(env, spec, s, clk);
            && |t.init.steps| == |t.collected| == |t.parsed| == |t.looped| == |t.final.steps| == |spec.steps|
            && t.final.steps == t.board.steps
            && Started(spec, s.status, t.init, clk.start) && t.init.startTime.Some?
            && (!s.status.phase.Terminal() ==> !t.init.phase.Terminal())
  {
    hide IsTruthy, SubmittedUpTo, PhaseUpdated, StepsOk, Collected, ParseAll, LoopsEvaluated, DataOf, StatusByName,
      Submissions;
    StatusMirrors(env, spec, s);
  }

  /** Every record keeps the JSON of its output, and nothing else. */
  ghost predicate JsonKept(engine: Engine, spec: FlowSpec, steps: seq<StepStatus>) {
    |steps| == |spec.steps| && forall i :: 0 <= i < |steps| ==> KeepsJson(engine, spec.steps[i], steps[i])
  }

  /** What a pass does to step i, stage by stage. */
  ghost predicate StagesOf(env: Env, spec: FlowSpec, s: Sys, clk: PassClock, t: PassTrace, i: nat)
    requires i < |spec.steps| == |t.init.steps| == |t.collected| == |t.parsed| == |t.looped| == |t.final.steps|
  {
    var engine, step := env.engine, spec.steps[i];
    && CollectOutcome(t.init.steps[i], t.collected[i], s.results, clk.collect)
    && t.parsed[i] == t.collected[i].(outputJson := t.parsed[i].outputJson) && KeepsJson(engine, step, t.parsed[i])
    && LoopOutcome(engine, step, t.parsed[i], t.looped[i], t.data)
    && SubmitOutcome(env, spec, t.looped, t.final.steps, i, t.data, clk.submit(i), t.board.stream, |s.stream|)
  }

  lemma PassStages(env: Env, spec: FlowSpec, s: Sys, clk: PassClock, i: nat)
    requires UniqueNames(spec) && Inv(env, spec, s) && i < |spec.steps|
    requires !s.status.phase.Unset? ==> JsonKept(env.engine, spec, s.status.steps)
    ensures var t := PassOf(env, spec, s, clk);
            && |t.init.steps| == |t.collected| == |t.parsed| == |t.looped| == |t.final.steps| == |spec.steps|
            && StagesOf(env, spec, s, clk, t, i)
  {
    hide Pass, SubmittedUpTo, StepsOk, ParseStep, CollectStep, RepetitionDue, Rearm, CollectOutcome, KeepsJson,
      LoopOutcome, SubmitOutcome, Submitted, LoopCap;
    var t := PassOf(env, spec, s, clk);
    PassStarts(env, spec, s, clk);
    StatusMirrors(env, spec, s);
    PassPointwise(env, spec, s.status, s.stream, s.results, 0, clk);
    RecordAtStart(env, spec, s, clk, i);
    CollectMeans(t.init.steps[i], s.results, clk.collect);
    CollectedJson(env, spec, i, t.init.steps[i], t.collected[i], s.results, clk.collect);
    ParsedKeepsJson(env.engine, spec, i, t.collected[i]);
    LoopsMean(env.engine, spec.steps[i], t.parsed[i], t.data);
    BoardOfPass(env, spec, s, clk);
    SubmitMeans(env, spec, Board(t.looped, s.stream), t.ix, t.data, clk.submit, i);
  }

  lemma RecordAtStart(env: Env, spec: FlowSpec, s: Sys, clk: PassClock, i: nat)
    requires Inv(env, spec, s) && i < |spec.steps| == |PassOf(env, spec, s, clk).init.steps|
    requires !s.status.phase.Unset? ==> JsonKept(env.engine, spec, s.status.steps)
    ensures var st := PassOf(env, spec, s, clk).init.steps[i];
            && (st.phase.Running? ==> st.taskId != "" && st.outputJson == "")
            && st.name == spec.steps[i].name && KeepsJson(env.engine, spec.steps[i], st)
  {
    hide Pass, LedgerOk;
    PassStarts(env, spec, s, clk);
  }

  lemma CollectedJson(env: Env, spec: FlowSpec, i: nat, st: StepStatus, c: StepStatus, results: seq<ResultMsg>,
                      clock: nat -> Time)
    requires i < |spec.steps| && KeepsJson(env.engine, spec.steps[i], st) && CollectOutcome(st, c, results, clock)
    requires st.phase.Running? ==> st.outputJson == ""
    ensures c.name == st.name && (c.outputJson == "" || KeepsJson(env.engine, spec.steps[i], c))
  {
  }

  lemma PassSees(env: Env, spec: FlowSpec, s: Sys, clk: PassClock)
    requires UniqueNames(spec) && StatusOk(env, spec, s)
    ensures Sees(env.engine, spec, PassOf(env, spec, s, clk).data, PassOf(env, spec, s, clk).parsed)
  {
    hide IsTruthy, SubmittedUpTo, PhaseUpdated, StepsOk, Collected, ParseAll, LoopsEvaluated, DataOf, StatusByName,
      Sees, Submissions, ParseStep, CollectStep, RepetitionDue, Rearm;
    var t := PassOf(env, spec, s, clk);
    StatusMirrors(env, spec, s);
    PassPointwise(env, spec, s.status, s.stream, s.results, 0, clk);
    DataIsSeen(env.engine, spec, t.parsed, t.ix);
  }

  /** The tasks that a pass appends. */
  lemma PassAppends(env: Env, spec: FlowSpec, s: Sys, clk: PassClock)
    requires UniqueNames(spec) && StatusOk(env, spec, s)
    ensures var t := PassOf(env, spec, s, clk);
            && s.stream <= t.board.stream
            && forall p :: |s.stream| <= p < |t.board.stream| ==> AppendedOk(env, spec, t.board, t.data, p)
  {
    hide Pass, SubmittedUpTo, StepsOk, AppendedOk, ParseStep, CollectStep, RepetitionDue, Rearm;
    var t := PassOf(env, spec, s, clk);
    StatusMirrors(env, spec, s);
    PassPointwise(env, spec, s.status, s.stream, s.results, 0, clk);
    BoardOfPass(env, spec, s, clk);
    StreamGrows(env, spec, s, 0, clk);
    forall p | |s.stream| <= p < |t.board.stream| ensures AppendedOk(env, spec, t.board, t.data, p) {
      AppendedMeans(env, spec, Board(t.looped, s.stream), t.ix, t.data, clk.submit, |spec.steps|, p);
    }
  }

  lemma PassDecides(env: Env, spec: FlowSpec, s: Sys, clk: PassClock)
    requires StatusOk(env, spec, s) && !s.status.phase.Terminal()
    ensures var t := PassOf(env, spec, s, clk);
            && t.init.startTime.Some? && t.final.startTime == t.init.startTime
            && Decided(spec, t.init.startTime.value, t.init, t.final, clk.finish)
            && Recorded(spec, t.init.startTime.value, t.init, t.final, clk.finish)
            && Outputs(env.engine, spec, t.init, t.final, t.data)
  {
    hide Pass, StatusOk, PhaseUpdated, Started;
    var t := PassOf(env, spec, s, clk);
    PassStarts(env, spec, s, clk);
    FinalIsUpdated(env, spec, s, clk);
    UpdateDecides(env.engine, spec, t.init.(steps := t.board.steps), t.data, clk.finish);
  }

  lemma FinalIsUpdated(env: Env, spec: FlowSpec, s: Sys, clk: PassClock)
    ensures var t := PassOf(env, spec, s, clk);
            t.final == PhaseUpdated(env.engine, spec, t.init.(steps := t.board.steps), t.data, clk.finish)
  {
    hide IsTruthy, SubmittedUpTo, PhaseUpdated, Collected, ParseAll, LoopsEvaluated, DataOf, StatusByName, Initialized;
  }

  // --- Runs -----------------------------------------------------------------------------------

  lemma PassKeepsJson(env: Env, spec: FlowSpec, s: Sys, clk: PassClock)
    requires UniqueNames(spec) && Inv(env, spec, s)
    requires !s.status.phase.Unset? ==> JsonKept(env.engine, spec, s.status.steps)
    ensures var t := PassOf(env, spec, s, clk);
            && JsonKept(env.engine, spec, t.looped) && JsonKept(env.engine, spec, t.final.steps)
  {
    hide Pass, StatusOk, StagesOf, KeepsJson;
    var t := PassOf(env, spec, s, clk);
    PassStarts(env, spec, s, clk);
    forall i | 0 <= i < |spec.steps|
      ensures KeepsJson(env.engine, spec.steps[i], t.looped[i])
      ensures KeepsJson(env.engine, spec.steps[i], t.final.steps[i])
    {
      PassStages(env, spec, s, clk, i);
      StagesKeepJson(env, spec, s, clk, t, i);
    }
  }

  lemma StagesKeepJson(env: Env, spec: FlowSpec, s: Sys, clk: PassClock, t: PassTrace, i: nat)
    requires i < |spec.steps| == |t.init.steps| == |t.collected| == |t.parsed| == |t.looped| == |t.final.steps|
    requires StagesOf(env, spec, s, clk, t, i)
    ensures KeepsJson(env.engine, spec.steps[i], t.looped[i])
    ensures KeepsJson(env.engine, spec.steps[i], t.final.steps[i])
  {
    hide CollectOutcome, LoopOutcome, SubmitOutcome, KeepsJson;
    LoopedJson(env.engine, spec.steps[i], t.parsed[i], t.looped[i], t.data);
    SubmittedJson(env, spec, t.looped, t.final.steps, i, t.data, clk.submit(i), t.board.stream, |s.stream|);
  }

  lemma SubmittedJson(env: Env, spec: FlowSpec, before: seq<StepStatus>, after: seq<StepStatus>, i: nat,
                      data: TemplateData, now: Time, stream: seq<Entry>, from: nat)
    requires i < |spec.steps| == |before| == |after| && KeepsJson(env.engine, spec.steps[i], before[i])
    requires SubmitOutcome(env, spec, before, after, i, data, now, stream, from)
    ensures KeepsJson(env.engine, spec.steps[i], after[i])
  {
    hide Released, ConditionFalse, Unresolvable, Prompted, JsonExtract.ExtractJson;
    var st, r := before[i], after[i];
    assert r == st || (st.phase.Pending? && !r.phase.Succeeded? && r.outputJson == st.outputJson);
  }

  /** In every reachable state a record has JSON only if its step has a schema, and then what extraction
      finds in its output. */
  lemma {:induction false} EveryRecordKeepsJson(env: Env, spec: FlowSpec, events: seq<Event>)
    requires UniqueNames(spec) && FreshIds(env) && LegalRun(env, spec, events)
    ensures var st := Run(env, spec, events).status;
            st.phase.Unset? || JsonKept(env.engine, spec, st.steps)
  {
    hide IsTruthy, Pass, StatusOk, JsonKept, Opens, CutShort;
    if events != [] {
      var before := events[..|events| - 1];
      EveryRecordKeepsJson(env, spec, before);
      RunInvariant(env, spec, before);
      var s := Run(env, spec, before);
      match events[|events| - 1]
      case Reconcile(gate, clk) => PassKeepsJson(env, spec, s, clk);
      case EnqueueFails(gate, clk, k) => CutShortKeepsJson(env, spec, s, clk, k);
      case _ =>
    }
  }

  lemma CutShortKeepsJson(env: Env, spec: FlowSpec, s: Sys, clk: PassClock, k: nat)
    requires UniqueNames(spec) && Inv(env, spec, s)
    requires !s.status.phase.Unset? ==> JsonKept(env.engine, spec, s.status.steps)
    ensures JsonKept(env.engine, spec, CutShort(env, spec, s, PassOf(env, spec, s, clk), clk, k).status.steps)
  {
    hide Pass, StatusOk, KeepsJson, Interrupted;
    PassKeepsJson(env, spec, s, clk);
    InterruptedStory(env, spec, s, clk, k);
  }

  /** The meaning of a pass, in any reachable state. */
  ghost predicate PassMeaning(env: Env, spec: FlowSpec, s: Sys, clk: PassClock) {
    var t := PassOf(env, spec, s, clk);
    && |t.init.steps| == |t.collected| == |t.parsed| == |t.looped| == |t.final.steps| == |spec.steps|
    && Started(spec, s.status, t.init, clk.start)
    && Sees(env.engine, spec, t.data, t.parsed)
    && (forall i :: 0 <= i < |spec.steps| ==> StagesOf(env, spec, s, clk, t, i))
    && s.stream <= t.board.stream
    && (forall p :: |s.stream| <= p < |t.board.stream| ==> AppendedOk(env, spec, t.board, t.data, p))
    && t.board.steps == t.final.steps
    && t.init.startTime.Some? && t.final.startTime == t.init.startTime
    && Decided(spec, t.init.startTime.value, t.init, t.final, clk.finish)
    && Recorded(spec, t.init.startTime.value, t.init, t.final, clk.finish)
    && Outputs(env.engine, spec, t.init, t.final, t.data)
  }

  lemma EveryPassMeans(env: Env, spec: FlowSpec, events: seq<Event>, clk: PassClock)
    requires UniqueNames(spec) && FreshIds(env) && LegalRun(env, spec, events)
    requires !Run(env, spec, events).status.phase.Terminal()
    ensures PassMeaning(env, spec, Run(env, spec, events), clk)
  {
    hide Pass, StatusOk, StagesOf, AppendedOk, Decided, Recorded, Outputs, Sees, Started, Run, LegalRun, JsonKept;
    var s := Run(env, spec, events);
    RunInvariant(env, spec, events);
    EveryRecordKeepsJson(env, spec, events);
    PassStarts(env, spec, s, clk);
    PassSees(env, spec, s, clk);
    PassAppends(env, spec, s, clk);
    PassDecides(env, spec, s, clk);
    forall i | 0 <= i < |spec.steps| ensures StagesOf(env, spec, s, clk, PassOf(env, spec, s, clk), i) {
      PassStages(env, spec, s, clk, i);
    }
  }

  /** Every task of the flow that is ever in the stream carries a prompt rendered, under the data of some
      moment, from the resolved inputs of its step. */
  lemma {:induction false} EveryTaskIsPrompted(env: Env, spec: FlowSpec, events: seq<Event>, p: nat)
    requires UniqueNames(spec) && FreshIds(env) && LegalRun(env, spec, events)
    requires p < |Run(env, spec, events).stream| && Run(env, spec, events).stream[p].FlowTask?
    ensures exists data :: Prompted(env, spec, Run(env, spec, events).stream[p], data)
  {
    hide IsTruthy, Pass, StatusOk, Opens, Prompted;
    var before := events[..|events| - 1];
    var s := Run(env, spec, before);
    if p < |s.stream| {
      StreamOnlyGrows(env, spec, before, events[|events| - 1]);
      EveryTaskIsPrompted(env, spec, before, p);
    } else {
      RunInvariant(env, spec, before);
      match events[|events| - 1]
      case Reconcile(gate, clk) =>
        if Opens(spec, s.status, gate) {
          PassAppends(env, spec, s, clk);
          assert AppendedOk(env, spec, PassOf(env, spec, s, clk).board, PassOf(env, spec, s, clk).data, p);
        }
      case EnqueueFails(gate, clk, k) =>
        if Opens(spec, s.status, gate) {
          PassAppends(env, spec, s, clk);
          InterruptedStory(env, spec, s, clk, k);
          assert AppendedOk(env, spec, PassOf(env, spec, s, clk).board, PassOf(env, spec, s, clk).data, p);
        }
      case _ =>
    }
  }

  lemma StreamOnlyGrows(env: Env, spec: FlowSpec, before: seq<Event>, e: Event)
    requires UniqueNames(spec) && FreshIds(env) && LegalRun(env, spec, before)
    ensures Run(env, spec, before).stream <= Next(env, spec, Run(env, spec, before), e).stream
  {
    hide Pass, StatusOk, Opens, Run, LegalRun, Interrupted;
    var s := Run(env, spec, before);
    RunInvariant(env, spec, before);
    match e
    case Reconcile(gate, clk) => StreamGrows(env, spec, s, 0, clk);
    case EnqueueFails(gate, clk, k) => InterruptedStory(env, spec, s, clk, k);
    case _ =>
  }

  /** The exact cause of every end, in every reachable state. */
  lemma {:induction false} EveryEndIsExact(env: Env, spec: FlowSpec, events: seq<Event>)
    requires UniqueNames(spec) && FreshIds(env) && LegalRun(env, spec, events)
    ensures EndIsExact(spec, Run(env, spec, events).status)
  {
    hide IsTruthy, Pass, StepsOk, Opens, CutShort, EndIsExact, Decided;
    if events == [] {
      FreshEnd(spec);
    } else {
      var before := events[..|events| - 1];
      EveryEndIsExact(env, spec, before);
      RunInvariant(env, spec, before);
      var s := Run(env, spec, before);
      match events[|events| - 1]
      case Reconcile(gate, clk) =>
        if Opens(spec, s.status, gate) {
          OpensWhenNotTerminal(spec, s.status, gate);
          PassEndIsExact(env, spec, s, clk);
        } else {
          TurnedAwayEnd(spec, s.status, gate);
        }
      case EnqueueFails(gate, clk, k) =>
        if Opens(spec, s.status, gate) {
          OpensWhenNotTerminal(spec, s.status, gate);
          CutShortEnd(env, spec, s, clk, k);
        } else {
          TurnedAwayEnd(spec, s.status, gate);
        }
      case _ =>
    }
  }

  lemma FreshEnd(spec: FlowSpec)
    ensures EndIsExact(spec, FRESH_STATUS)
  {
  }

  lemma TurnedAwayEnd(spec: FlowSpec, st: FlowStatus, gate: Gate)
    requires EndIsExact(spec, st)
    ensures EndIsExact(spec, TurnedAway(spec, st, gate))
  {
    hide Late, Overspent;
  }

  lemma StartEnd(spec: FlowSpec, was: FlowStatus, st: FlowStatus, now: Time)
    requires EndIsExact(spec, was) && Started(spec, was, st, now) && !was.phase.Terminal()
    ensures EndIsExact(spec, st)
  {
  }

  lemma PassEndIsExact(env: Env, spec: FlowSpec, s: Sys, clk: PassClock)
    requires StatusOk(env, spec, s) && !s.status.phase.Terminal() && EndIsExact(spec, s.status)
    ensures EndIsExact(spec, PassOf(env, spec, s, clk).final)
  {
    hide Pass, StatusOk, EndIsExact, Decided, Started;
    var t := PassOf(env, spec, s, clk);
    PassStarts(env, spec, s, clk);
    PassDecides(env, spec, s, clk);
    StartEnd(spec, s.status, t.init, clk.start);
    DecidedEndIsExact(spec, t.init, t.final, clk.finish);
  }

  lemma CutShortEnd(env: Env, spec: FlowSpec, s: Sys, clk: PassClock, k: nat)
    requires UniqueNames(spec) && StatusOk(env, spec, s) && !s.status.phase.Terminal() && EndIsExact(spec, s.status)
    ensures EndIsExact(spec, CutShort(env, spec, s, PassOf(env, spec, s, clk), clk, k).status)
  {
    var t := PassOf(env, spec, s, clk);
    hide Pass, StatusOk, Started, Interrupted;
    PassStarts(env, spec, s, clk);
    StartEnd(spec, s.status, t.init, clk.start);
    InterruptedStory(env, spec, s, clk, k);
  }

  /** The output of the flow in every reachable state. */
  lemma {:induction false} EveryOutputIsExact(env: Env, spec: FlowSpec, events: seq<Event>)
    requires UniqueNames(spec) && FreshIds(env) && LegalRun(env, spec, events)
    ensures OutputIsExact(env.engine, spec, Run(env, spec, events).status)
  {
    hide IsTruthy, Pass, StepsOk, Opens, CutShort, Sees, SeesSucceeded, OutputText;
    if events != [] {
      var before := events[..|events| - 1];
      EveryOutputIsExact(env, spec, before);
      RunInvariant(env, spec, before);
      var s := Run(env, spec, before);
      match events[|events| - 1]
      case Reconcile(gate, clk) =>
        if Opens(spec, s.status, gate) {
          OpensWhenNotTerminal(spec, s.status, gate);
          EveryRecordKeepsJson(env, spec, before);
          PassOutputIsExact(env, spec, s, clk);
        } else {
          TurnedAwayOutput(env.engine, spec, s.status, gate);
        }
      case EnqueueFails(gate, clk, k) =>
        if Opens(spec, s.status, gate) {
          OpensWhenNotTerminal(spec, s.status, gate);
          CutShortOutput(env, spec, s, clk, k);
        } else {
          TurnedAwayOutput(env.engine, spec, s.status, gate);
        }
      case _ =>
    }
  }

  lemma TurnedAwayOutput(engine: Engine, spec: FlowSpec, st: FlowStatus, gate: Gate)
    requires OutputIsExact(engine, spec, st)
    ensures OutputIsExact(engine, spec, TurnedAway(spec, st, gate))
  {
    hide Sees, SeesSucceeded, OutputText;
  }

  lemma CutShortOutput(env: Env, spec: FlowSpec, s: Sys, clk: PassClock, k: nat)
    requires UniqueNames(spec) && StatusOk(env, spec, s) && !s.status.phase.Terminal() && s.status.output == ""
    ensures OutputIsExact(env.engine, spec, CutShort(env, spec, s, PassOf(env, spec, s, clk), clk, k).status)
  {
    hide Pass, StatusOk, Interrupted;
    PassStarts(env, spec, s, clk);
    InterruptedStory(env, spec, s, clk, k);
  }

  lemma PassOutputIsExact(env: Env, spec: FlowSpec, s: Sys, clk: PassClock)
    requires UniqueNames(spec) && Inv(env, spec, s) && !s.status.phase.Terminal() && s.status.output == ""
    requires !s.status.phase.Unset? ==> JsonKept(env.engine, spec, s.status.steps)
    ensures OutputIsExact(env.engine, spec, PassOf(env, spec, s, clk).final)
  {
    hide Pass, StatusOk, Decided, Sees, SeesSucceeded, JsonKept;
    var t := PassOf(env, spec, s, clk);
    PassStarts(env, spec, s, clk);
    PassSees(env, spec, s, clk);
    PassDecides(env, spec, s, clk);
    forall i | 0 <= i < |spec.steps|
      ensures t.final.steps[i].phase.Succeeded? ==> t.final.steps[i] == t.parsed[i]
      ensures LoopFree(spec) ==> t.final.steps[i].output == t.parsed[i].output
                                 && t.final.steps[i].outputJson == t.parsed[i].outputJson
    {
      PassStages(env, spec, s, clk, i);
      SeenStage(env, spec, s, clk, i);
    }
    SeenAtEnd(env.engine, spec, t.data, t.parsed, t.final.steps);
  }

  lemma SeenStage(env: Env, spec: FlowSpec, s: Sys, clk: PassClock, i: nat)
    requires var t := PassOf(env, spec, s, clk);
             && i < |spec.steps| == |t.init.steps| == |t.collected| == |t.parsed| == |t.looped| == |t.final.steps|
             && StagesOf(env, spec, s, clk, t, i)
    ensures var t := PassOf(env, spec, s, clk);
            && (t.final.steps[i].phase.Succeeded? ==> t.final.steps[i] == t.parsed[i])
            && (LoopFree(spec) ==> t.final.steps[i].output == t.parsed[i].output
                                   && t.final.steps[i].outputJson == t.parsed[i].outputJson)
  {
    hide Pass, CollectOutcome, KeepsJson, Released, ConditionFalse, Unresolvable, Prompted;
  }

  /** What it means that a pass ends with the flow Succeeded: every step has succeeded or was skipped, in
      time and within budget, and no step is to be repeated under the data of that pass: a looped step that
      succeeded has its condition falsy or its repetitions used up. */
  lemma MeaningOfSucceeded(env: Env, spec: FlowSpec, s: Sys, clk: PassClock)
    requires UniqueNames(spec) && Inv(env, spec, s) && Monotone(clk, s.clock)
    requires !s.status.phase.Terminal() && PassOf(env, spec, s, clk).final.phase.FlowSucceeded?
    ensures var t := PassOf(env, spec, s, clk); var f := t.final;
            && |f.steps| == |spec.steps| && AllOver(f.steps)
            && f.startTime.Some? && f.completionTime.Some? && f.startTime.value <= f.completionTime.value
            && !Late(spec, f.startTime.value, f.completionTime.value) && !Overspent(spec, f.steps)
            && (forall j :: 0 <= j < |spec.steps| ==> !Repeats(env.engine, spec.steps[j], f.steps[j], t.data))
  {
    hide Pass, Repeats, Overspent, LedgerOk, RecordOk;
    var t := PassOf(env, spec, s, clk);
    MonotoneBounds(clk, s.clock);
    PassStarts(env, spec, s, clk);
    PassDecides(env, spec, s, clk);
    forall j | 0 <= j < |spec.steps| ensures !Repeats(env.engine, spec.steps[j], t.final.steps[j], t.data) {
      NotRepeatedAtEnd(env, spec, s, clk, j);
    }
  }

  lemma NotRepeatedAtEnd(env: Env, spec: FlowSpec, s: Sys, clk: PassClock, j: nat)
    requires UniqueNames(spec) && StatusOk(env, spec, s) && j < |spec.steps|
    requires |PassOf(env, spec, s, clk).final.steps| == |spec.steps|
    ensures var t := PassOf(env, spec, s, clk); !Repeats(env.engine, spec.steps[j], t.final.steps[j], t.data)
  {
    hide Pass, StatusOk, ParseStep, CollectStep, IsTruthy;
    PassStory(env, spec, s, clk, j);
    LoopsMean(env.engine, spec.steps[j], PassOf(env, spec, s, clk).parsed[j], PassOf(env, spec, s, clk).data);
  }

  /** What a reconcile looks up first decides, in this order, whether it works on the flow at all. */
  lemma GatesMean(env: Env, spec: FlowSpec, s: Sys, gate: Gate, clk: PassClock)
    ensures var r := Next(env, spec, s, Reconcile(gate, clk));
            if gate.isTemplate then r == s.(clock := clk.finish)
            else if !Dag.ValidDag(spec) then
              r == s.(status := s.status.(ready := Some(InvalidDag)), clock := clk.finish)
            else if !gate.agentsExist then
              r == s.(status := s.status.(ready := Some(DeploymentNotFound)), clock := clk.finish)
            else if s.status.phase.FlowSucceeded? || s.status.phase.FlowFailed? then r == s.(clock := clk.finish)
            else if !gate.hasRedis then r == s.(status := s.status.(ready := Some(NoTaskQueue)), clock := clk.finish)
            else
              var t := PassOf(env, spec, s, clk);
              r == Sys(t.final, t.board.stream, s.results, |s.results|, clk.finish)
  {
    hide Pass, Dag.ValidDag;
  }
}

/** Token accounting of the controller over all runs. */
module ControllerTokens {
  import opened FlowTypes
  import opened Templates
  import opened FlowLogic
  import opened Controller
  import opened ControllerRuns
  import opened ControllerSafety

  /** Agents report non-negative token counts. */
  ghost predicate CountsTokens(events: seq<Event>) {
    forall e :: e in events && e.ResultsArrive? ==> NonNegative(e.msgs)
  }

  ghost predicate NonNegative(results: seq<ResultMsg>) {
    forall k :: 0 <= k < |results| ==> results[k].inputTokens >= 0 && results[k].outputTokens >= 0
  }

  /** A recorded usage is positive and adds up. */
  ghost predicate UsageOk(st: StepStatus) {
    st.tokenUsage.Some? ==>
      var u := st.tokenUsage.value;
      u.inputTokens >= 0 && u.outputTokens >= 0 && u.totalTokens == u.inputTokens + u.outputTokens > 0
  }

  ghost predicate UsagesOk(steps: seq<StepStatus>) {
    forall i :: 0 <= i < |steps| ==> UsageOk(steps[i])
  }

  lemma {:induction false} SumsArePositive(steps: seq<StepStatus>)
    requires UsagesOk(steps)
    ensures InputTokens(steps) >= 0 && OutputTokens(steps) >= 0
    ensures TokenSum(steps) > 0 <==> exists i :: 0 <= i < |steps| && steps[i].tokenUsage.Some?
  {
    if steps != [] {
      var last := |steps| - 1;
      SumsArePositive(steps[..last]);
      if i :| 0 <= i < last && steps[..last][i].tokenUsage.Some? {
        assert steps[i].tokenUsage.Some?;
      }
    }
  }

  lemma {:induction false} SumsGrow(a: seq<StepStatus>, b: seq<StepStatus>)
    requires |a| == |b| && UsagesOk(a) && UsagesOk(b)
    requires forall i :: 0 <= i < |a| && a[i].tokenUsage.Some? ==> b[i].tokenUsage == a[i].tokenUsage
    ensures InputTokens(a) <= InputTokens(b) && OutputTokens(a) <= OutputTokens(b)
  {
    if a != [] {
      SumsGrow(a[..|a| - 1], b[..|b| - 1]);
    }
  }

  lemma {:induction false} AppliedUsage(st: StepStatus, results: seq<ResultMsg>, clock: nat -> Time, lo: nat, hi: nat)
    requires hi <= |results| && NonNegative(results) && UsageOk(st)
    ensures UsageOk(Applied(st, results, clock, lo, hi))
    ensures st.tokenUsage.Some? ==> Applied(st, results, clock, lo, hi).tokenUsage.Some?
    decreases hi
  {
    if hi > lo {
      AppliedUsage(st, results, clock, lo, hi - 1);
    }
  }

  /** After collecting, a pass does not touch the usage of a step. */
  lemma UsageInPass(env: Env, spec: FlowSpec, s: Sys, clk: PassClock, i: nat)
    requires UniqueNames(spec) && StatusOk(env, spec, s) && i < |spec.steps|
    ensures var t := PassOf(env, spec, s, clk);
            && |t.init.steps| == |spec.steps|
            && t.final.steps[i].tokenUsage == t.collected[i].tokenUsage
            && t.collected[i] == CollectStep(t.init.steps[i], s.results, clk.collect, 0, |s.results|)
  {
    hide IsTruthy, Pass, StatusOk, ParsedJson, HasSchema, CollectStep, RepetitionDue;
    PassStory(env, spec, s, clk, i);
  }

  ghost predicate TokensOk(st: FlowStatus) {
    UsagesOk(st.steps) && st.totals == Totals(st.steps, None)
  }

  /** Totals are recorded only when there is usage; they may be older than the records. */
  ghost predicate TokensBehind(st: FlowStatus) {
    UsagesOk(st.steps) && (st.totals.Some? ==> TokenSum(st.steps) > 0)
  }

  /** After every update that is not a timeout, the flow's totals are the sums over its steps. */
  lemma TotalsMatchSteps(env: Env, spec: FlowSpec, s: Sys, clk: PassClock)
    requires UniqueNames(spec) && StatusOk(env, spec, s) && NonNegative(s.results)
    requires TokensBehind(s.status)
    ensures var t := PassOf(env, spec, s, clk);
            TokensBehind(t.final) && (!Overdue(spec, t.init, clk.finish) ==> TokensOk(t.final))
  {
    hide IsTruthy, Pass, StatusOk, InputTokens, OutputTokens;
    var t := PassOf(env, spec, s, clk);
    StartOfTotals(env, spec, s, clk);
    forall i | 0 <= i < |t.final.steps|
      ensures UsageOk(t.final.steps[i])
      ensures t.init.steps[i].tokenUsage.Some? ==> t.final.steps[i].tokenUsage.Some?
    {
      UsageInPass(env, spec, s, clk, i);
      if InFlight(t.init.steps[i]) {
        AppliedUsage(t.init.steps[i], s.results, clk.collect, 0, |s.results|);
      }
    }
    SumsArePositive(t.init.steps);
    SumsArePositive(t.final.steps);
    if TokenSum(t.final.steps) == 0 {
      assert t.init.totals == None;
    }
    TotalsAtStart(env, spec, s, clk);
  }

  lemma StartOfTotals(env: Env, spec: FlowSpec, s: Sys, clk: PassClock)
    requires StatusOk(env, spec, s) && TokensBehind(s.status)
    ensures var t := PassOf(env, spec, s, clk);
            && |t.init.steps| == |t.final.steps| == |spec.steps|
            && TokensBehind(t.init)
            && (!Overdue(spec, t.init, clk.finish) ==> t.final.totals == Totals(t.final.steps, t.init.totals))
  {
    hide IsTruthy, SubmittedUpTo, DataOf, StatusByName, ParseAll, LoopsEvaluated, Collected, Deadline, FlowOutput,
      StepsOk, Submissions;
    StatusMirrors(env, spec, s);
    NothingSpentAtStart(spec, |spec.steps|);
    assert InitialSteps(spec)[..|spec.steps|] == InitialSteps(spec);
    NoTotalsYet(s.status);
  }

  lemma NoTotalsYet(st: FlowStatus)
    requires TokensBehind(st)
    ensures st.steps == [] ==> st.totals == None
  {
  }

  lemma {:induction false} ResultsCountTokens(env: Env, spec: FlowSpec, events: seq<Event>)
    requires CountsTokens(events)
    ensures NonNegative(Run(env, spec, events).results)
  {
    hide Pass;
    if events != [] {
      assert events[|events| - 1] in events;
      ResultsCountTokens(env, spec, events[..|events| - 1]);
    }
  }

  lemma NoTokensInNoSteps()
    ensures InputTokens([]) == 0 && OutputTokens([]) == 0 && Totals([], None) == None
  {
  }

  /** Submission does not touch usage, so a pass cut short charges what the whole pass would. */
  lemma CutShortCharges(env: Env, spec: FlowSpec, s: Sys, clk: PassClock, k: nat)
    requires UniqueNames(spec) && StatusOk(env, spec, s)
    ensures var t := PassOf(env, spec, s, clk);
            var q := CutShort(env, spec, s, t, clk, k).status;
            && |q.steps| == |t.final.steps| == |spec.steps|
            && q.totals == t.init.totals
            && forall i :: 0 <= i < |spec.steps| ==>
                 && q.steps[i].tokenUsage == t.final.steps[i].tokenUsage
                 && (q.steps[i].phase.Succeeded? <==> t.final.steps[i].phase.Succeeded?)
  {
    hide IsTruthy, Pass, StatusOk, ParseStep, CollectStep, RepetitionDue, Rearm, Interrupted;
    InterruptedStory(env, spec, s, clk, k);
    forall i | 0 <= i < |spec.steps|
      ensures var t := PassOf(env, spec, s, clk);
              && t.looped[i].tokenUsage == t.final.steps[i].tokenUsage
              && (t.looped[i].phase.Succeeded? <==> t.final.steps[i].phase.Succeeded?)
    {
      PassStory(env, spec, s, clk, i);
    }
  }

  lemma {:induction false} SameUsageSameSums(a: seq<StepStatus>, b: seq<StepStatus>)
    requires |a| == |b| && forall i :: 0 <= i < |a| ==> b[i].tokenUsage == a[i].tokenUsage
    ensures InputTokens(a) == InputTokens(b) && OutputTokens(a) == OutputTokens(b)
    ensures UsagesOk(a) ==> UsagesOk(b)
  {
    if a != [] {
      SameUsageSameSums(a[..|a| - 1], b[..|b| - 1]);
    }
  }

  lemma CutShortStaysBehind(env: Env, spec: FlowSpec, s: Sys, clk: PassClock, k: nat)
    requires UniqueNames(spec) && StatusOk(env, spec, s) && NonNegative(s.results) && TokensBehind(s.status)
    ensures var t := PassOf(env, spec, s, clk);
            var q := CutShort(env, spec, s, t, clk, k).status;
            && TokensBehind(q) && TokensBehind(t.final)
            && InputTokens(q.steps) == InputTokens(t.final.steps)
            && OutputTokens(q.steps) == OutputTokens(t.final.steps)
  {
    hide IsTruthy, Pass, StatusOk, InputTokens, OutputTokens, CutShort;
    var t := PassOf(env, spec, s, clk);
    var q := CutShort(env, spec, s, t, clk, k).status;
    TotalsMatchSteps(env, spec, s, clk);
    CutShortCharges(env, spec, s, clk, k);
    SameUsageSameSums(t.final.steps, q.steps);
    TotalsAtStart(env, spec, s, clk);
    StartOfTotals(env, spec, s, clk);
    SumsArePositive(t.init.steps);
    SumsArePositive(t.final.steps);
    forall i | 0 <= i < |spec.steps| && t.init.steps[i].tokenUsage.Some?
      ensures t.final.steps[i].tokenUsage.Some?
    {
      UsageInPass(env, spec, s, clk, i);
      if InFlight(t.init.steps[i]) {
        AppliedUsage(t.init.steps[i], s.results, clk.collect, 0, |s.results|);
      }
    }
  }

  /** The last pass that worked on the flow got as far as updating its phase. */
  ghost predicate UpToDate(env: Env, spec: FlowSpec, events: seq<Event>) {
    events == [] ||
    var before := events[..|events| - 1];
    match events[|events| - 1]
    case Reconcile(gate, _) => Opens(spec, Run(env, spec, before).status, gate) || UpToDate(env, spec, before)
    case EnqueueFails(gate, _, _) => !Opens(spec, Run(env, spec, before).status, gate) && UpToDate(env, spec, before)
    case _ => UpToDate(env, spec, before)
  }

  /** In every reachable state that is not a failure the totals are the sums over the steps, provided the
      last pass was not cut short; in every state there is usage if totals are recorded. */
  lemma {:induction false} TokenAccounting(env: Env, spec: FlowSpec, events: seq<Event>)
    requires UniqueNames(spec) && FreshIds(env) && LegalRun(env, spec, events) && CountsTokens(events)
    ensures TokensBehind(Run(env, spec, events).status)
    ensures !Run(env, spec, events).status.phase.FlowFailed? && UpToDate(env, spec, events) ==>
              TokensOk(Run(env, spec, events).status)
  {
    hide IsTruthy, Pass, StatusOk, InputTokens, OutputTokens, CutShort, Totals, Opens;
    if events != [] {
      var before := events[..|events| - 1];
      TokenAccounting(env, spec, before);
      RunInvariant(env, spec, before);
      ResultsCountTokens(env, spec, before);
      var s := Run(env, spec, before);
      match events[|events| - 1]
      case Reconcile(gate, clk) =>
        if Opens(spec, s.status, gate) {
          TotalsMatchSteps(env, spec, s, clk);
          OverdueFails(env, spec, s, clk);
        }
      case EnqueueFails(gate, clk, k) =>
        if Opens(spec, s.status, gate) {
          CutShortStaysBehind(env, spec, s, clk, k);
        }
      case _ =>
    } else {
      NoTokensInNoSteps();
    }
  }

  lemma OverdueFails(env: Env, spec: FlowSpec, s: Sys, clk: PassClock)
    ensures var t := PassOf(env, spec, s, clk); Overdue(spec, t.init, clk.finish) ==> t.final.phase.FlowFailed?
  {
    hide IsTruthy, SubmittedUpTo, DataOf, StatusByName, ParseAll, LoopsEvaluated, Collected, Deadline;
  }

  /** In a loop-free flow a step is charged once. */
  ghost predicate UnpaidBeforeSuccess(steps: seq<StepStatus>) {
    forall i :: 0 <= i < |steps| && !steps[i].phase.Succeeded? ==> steps[i].tokenUsage.None?
  }

  lemma UnpaidByParts(steps: seq<StepStatus>)
    requires forall i :: 0 <= i < |steps| ==> !steps[i].phase.Succeeded? ==> steps[i].tokenUsage.None?
    ensures UnpaidBeforeSuccess(steps)
  {
  }

  lemma UnpaidAtStart(env: Env, spec: FlowSpec, s: Sys, clk: PassClock)
    requires StatusOk(env, spec, s) && UnpaidBeforeSuccess(s.status.steps)
    ensures UnpaidBeforeSuccess(PassOf(env, spec, s, clk).init.steps)
    ensures |PassOf(env, spec, s, clk).init.steps| == |spec.steps|
  {
    hide IsTruthy, SubmittedUpTo, PhaseUpdated, StepsOk, DataOf, StatusByName, Collected, ParseAll, LoopsEvaluated,
      Submissions;
    StatusMirrors(env, spec, s);
  }

  lemma ChargeOfStep(env: Env, spec: FlowSpec, s: Sys, clk: PassClock, i: nat)
    requires UniqueNames(spec) && LoopFree(spec) && StatusOk(env, spec, s) && i < |spec.steps|
    requires |PassOf(env, spec, s, clk).init.steps| == |spec.steps|
    requires UnpaidBeforeSuccess(PassOf(env, spec, s, clk).init.steps)
    ensures var t := PassOf(env, spec, s, clk);
            && (!t.final.steps[i].phase.Succeeded? ==> t.final.steps[i].tokenUsage.None?)
            && (t.init.steps[i].tokenUsage.Some? ==> t.final.steps[i].tokenUsage == t.init.steps[i].tokenUsage)
  {
    hide IsTruthy, Pass, StatusOk, ParsedJson, HasSchema, CollectStep, RepetitionDue;
    var t := PassOf(env, spec, s, clk);
    PassStory(env, spec, s, clk, i);
    LoopFreeIsNeverDue(env.engine, spec, t.parsed[i], t.data, i);
    CollectAdvances(t.init.steps[i], s.results, clk.collect);
  }

  lemma PassChargesOnce(env: Env, spec: FlowSpec, s: Sys, clk: PassClock)
    requires UniqueNames(spec) && LoopFree(spec) && StatusOk(env, spec, s)
    requires UnpaidBeforeSuccess(s.status.steps)
    ensures var t := PassOf(env, spec, s, clk);
            && UnpaidBeforeSuccess(t.final.steps) && |t.init.steps| == |t.final.steps| == |spec.steps|
            && forall i :: 0 <= i < |spec.steps| && t.init.steps[i].tokenUsage.Some? ==>
                 t.final.steps[i].tokenUsage == t.init.steps[i].tokenUsage
  {
    hide IsTruthy, Pass, StatusOk, UnpaidBeforeSuccess;
    var t := PassOf(env, spec, s, clk);
    PassMirrors(env, spec, s, 0, clk);
    UnpaidAtStart(env, spec, s, clk);
    forall i | 0 <= i < |spec.steps|
      ensures !t.final.steps[i].phase.Succeeded? ==> t.final.steps[i].tokenUsage.None?
      ensures t.init.steps[i].tokenUsage.Some? ==> t.final.steps[i].tokenUsage == t.init.steps[i].tokenUsage
    {
      ChargeOfStep(env, spec, s, clk, i);
    }
    UnpaidByParts(t.final.steps);
  }

  lemma CutShortChargesOnce(env: Env, spec: FlowSpec, s: Sys, clk: PassClock, k: nat)
    requires UniqueNames(spec) && LoopFree(spec) && StatusOk(env, spec, s)
    requires UnpaidBeforeSuccess(s.status.steps)
    ensures UnpaidBeforeSuccess(CutShort(env, spec, s, PassOf(env, spec, s, clk), clk, k).status.steps)
  {
    hide IsTruthy, Pass, StatusOk, CutShort;
    PassChargesOnce(env, spec, s, clk);
    CutShortCharges(env, spec, s, clk, k);
  }

  lemma {:induction false} StepsAreChargedOnce(env: Env, spec: FlowSpec, events: seq<Event>)
    requires UniqueNames(spec) && LoopFree(spec) && FreshIds(env) && LegalRun(env, spec, events)
    ensures UnpaidBeforeSuccess(Run(env, spec, events).status.steps)
  {
    hide IsTruthy, Pass, StatusOk, CutShort;
    if events != [] {
      var before := events[..|events| - 1];
      StepsAreChargedOnce(env, spec, before);
      RunInvariant(env, spec, before);
      match events[|events| - 1]
      case Reconcile(gate, clk) => PassChargesOnce(env, spec, Run(env, spec, before), clk);
      case EnqueueFails(gate, clk, k) => CutShortChargesOnce(env, spec, Run(env, spec, before), clk, k);
      case _ =>
    }
  }

  /** Recorded totals never shrink. */
  ghost predicate TotalsGrow(a: Option<TokenUsage>, b: Option<TokenUsage>) {
    a.Some? ==>
      && b.Some? && a.value.inputTokens <= b.value.inputTokens && a.value.outputTokens <= b.value.outputTokens
      && a.value.totalTokens <= b.value.totalTokens
  }

  ghost predicate SumsAtMost(a: seq<StepStatus>, b: seq<StepStatus>) {
    InputTokens(a) <= InputTokens(b) && OutputTokens(a) <= OutputTokens(b)
  }

  lemma GreaterSumsGreaterTotals(a: seq<StepStatus>, b: seq<StepStatus>)
    requires UsagesOk(a) && UsagesOk(b) && SumsAtMost(a, b)
    ensures TotalsGrow(Totals(a, None), Totals(b, None))
  {
    hide InputTokens, OutputTokens;
    SumsArePositive(a);
  }

  /** A pass of a loop-free flow, cut short or not, charges no less than was charged before. */
  lemma PassSpends(env: Env, spec: FlowSpec, s: Sys, clk: PassClock)
    requires UniqueNames(spec) && LoopFree(spec) && StatusOk(env, spec, s) && NonNegative(s.results)
    requires TokensBehind(s.status) && UnpaidBeforeSuccess(s.status.steps)
    ensures UsagesOk(PassOf(env, spec, s, clk).final.steps)
    ensures SumsAtMost(s.status.steps, PassOf(env, spec, s, clk).final.steps)
  {
    hide IsTruthy, Pass, StatusOk, InputTokens, OutputTokens, Totals;
    PassChargesOnce(env, spec, s, clk);
    TotalsMatchSteps(env, spec, s, clk);
    SumsFromStart(env, spec, s, clk);
    SumsGrow(PassOf(env, spec, s, clk).init.steps, PassOf(env, spec, s, clk).final.steps);
  }

  /** Starting a flow leaves its totals alone, and so does a timeout. */
  lemma TotalsAtStart(env: Env, spec: FlowSpec, s: Sys, clk: PassClock)
    ensures var t := PassOf(env, spec, s, clk);
            && t.init.totals == s.status.totals
            && (Overdue(spec, t.init, clk.finish) ==> t.final.totals == t.init.totals)
  {
    hide IsTruthy, SubmittedUpTo, DataOf, StatusByName, ParseAll, LoopsEvaluated, Collected, Deadline, FlowOutput,
      Totals;
  }

  /** The sums are at least what the totals say. */
  ghost predicate TotalsLag(st: FlowStatus) {
    TotalsGrow(st.totals, Totals(st.steps, None))
  }

  /** One step of a run of a loop-free flow neither lowers the sums nor the recorded totals. */
  lemma NextSpends(env: Env, spec: FlowSpec, s: Sys, e: Event)
    requires UniqueNames(spec) && LoopFree(spec) && Inv(env, spec, s) && NonNegative(s.results)
    requires TokensBehind(s.status) && UnpaidBeforeSuccess(s.status.steps) && TotalsLag(s.status)
    ensures var r := Next(env, spec, s, e);
            && SumsAtMost(s.status.steps, r.status.steps)
            && TotalsGrow(s.status.totals, r.status.totals) && TotalsLag(r.status)
  {
    hide IsTruthy, Pass, StatusOk, InputTokens, OutputTokens, Totals, Opens, CutShort, UsagesOk, UnpaidBeforeSuccess;
    match e
    case Reconcile(gate, clk) =>
      var f := PassOf(env, spec, s, clk).final;
      PassSpends(env, spec, s, clk);
      GreaterSumsGreaterTotals(s.status.steps, f.steps);
      TotalsMatchSteps(env, spec, s, clk);
      TotalsAtStart(env, spec, s, clk);
    case EnqueueFails(gate, clk, k) =>
      var f := CutShort(env, spec, s, PassOf(env, spec, s, clk), clk, k).status;
      PassSpends(env, spec, s, clk);
      CutShortStaysBehind(env, spec, s, clk, k);
      GreaterSumsGreaterTotals(s.status.steps, f.steps);
      CutShortCharges(env, spec, s, clk, k);
      TotalsAtStart(env, spec, s, clk);
    case _ =>
  }

  /** In a loop-free flow the totals never say more than was spent. */
  lemma {:induction false} TotalsNeverExceedSpending(env: Env, spec: FlowSpec, events: seq<Event>)
    requires UniqueNames(spec) && LoopFree(spec) && FreshIds(env)
    requires LegalRun(env, spec, events) && CountsTokens(events)
    ensures TotalsLag(Run(env, spec, events).status)
  {
    hide IsTruthy, Next, Inv, Totals, Legal;
    if events == [] {
      NoTokensInNoSteps();
    } else {
      var before := events[..|events| - 1];
      TotalsNeverExceedSpending(env, spec, before);
      TokenAccounting(env, spec, before);
      RunInvariant(env, spec, before);
      ResultsCountTokens(env, spec, before);
      StepsAreChargedOnce(env, spec, before);
      NextSpends(env, spec, Run(env, spec, before), events[|events| - 1]);
    }
  }

  /** Along a run of a loop-free flow neither the token sums over its steps nor the recorded totals ever
      decrease; timeouts and passes cut short are included. */
  lemma {:induction false} SpendingNeverShrinks(env: Env, spec: FlowSpec, events: seq<Event>, later: seq<Event>)
    requires UniqueNames(spec) && LoopFree(spec) && FreshIds(env)
    requires LegalRun(env, spec, events + later) && CountsTokens(events + later)
    ensures SumsAtMost(Run(env, spec, events).status.steps, Run(env, spec, events + later).status.steps)
    ensures TotalsGrow(Run(env, spec, events).status.totals, Run(env, spec, events + later).status.totals)
    decreases |later|
  {
    hide IsTruthy, Next, Inv, InputTokens, OutputTokens, Totals, Legal;
    if later == [] {
      assert events + later == events;
    } else {
      var more := later[..|later| - 1];
      var before := events + more;
      assert (events + later)[..|events + later| - 1] == before;
      assert forall e :: e in before ==> e in events + later;
      SpendingNeverShrinks(env, spec, events, more);
      TotalsNeverExceedSpending(env, spec, before);
      TokenAccounting(env, spec, before);
      RunInvariant(env, spec, before);
      ResultsCountTokens(env, spec, before);
      StepsAreChargedOnce(env, spec, before);
      NextSpends(env, spec, Run(env, spec, before), later[|later| - 1]);
    }
  }

  lemma {:induction false} NothingSpentAtStart(spec: FlowSpec, n: nat)
    requires n <= |spec.steps|
    ensures InputTokens(InitialSteps(spec)[..n]) == 0 && OutputTokens(InitialSteps(spec)[..n]) == 0
    ensures UsagesOk(InitialSteps(spec))
  {
    if n > 0 {
      assert InitialSteps(spec)[..n][..n - 1] == InitialSteps(spec)[..n - 1];
      NothingSpentAtStart(spec, n - 1);
    }
  }

  lemma SumsFromStart(env: Env, spec: FlowSpec, s: Sys, clk: PassClock)
    requires StatusOk(env, spec, s) && UsagesOk(s.status.steps)
    ensures var t := PassOf(env, spec, s, clk);
            && UsagesOk(t.init.steps)
            && InputTokens(t.init.steps) == InputTokens(s.status.steps)
            && OutputTokens(t.init.steps) == OutputTokens(s.status.steps)
  {
    hide IsTruthy, SubmittedUpTo, PhaseUpdated, DataOf, StatusByName, ParseAll, LoopsEvaluated, Collected, StepsOk,
      Submissions;
    NothingSpentAtStart(spec, |spec.steps|);
    assert InitialSteps(spec)[..|spec.steps|] == InitialSteps(spec);
  }
}

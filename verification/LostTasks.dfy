/** The controller and the task queue together: what becomes of a flow when one of its tasks is retried or
    dead-lettered. The agent's retry runs under a new ID, which the flow never learns. */
module LostTasks {
  import opened FlowTypes
  import opened Templates
  import opened FlowLogic
  import opened Controller
  import opened ControllerRuns
  import opened ControllerSafety
  import opened StepMeaning
  import opened ControllerMeaning
  import QueueLineage
  import QueueWire
  import Decimal

  /** Every result the controller has read was acknowledged by an agent. */
  ghost predicate AnsweredBy(env: Env, results: seq<ResultMsg>, w: QueueLineage.World) {
    forall k :: 0 <= k < |results| ==>
      exists j :: 0 <= j < |w.redis.results| && results[k].taskId == env.idOf(w.redis.results[j].taskId)
  }

  // --- A step whose result never comes --------------------------------------------------------

  /** A pass leaves a running step alone when no result carries its ID. */
  lemma PassLeavesUnanswered(env: Env, spec: FlowSpec, s: Sys, clk: PassClock, i: nat)
    requires UniqueNames(spec) && StatusOk(env, spec, s) && !s.status.phase.Unset?
    requires i < |spec.steps| == |s.status.steps| && s.status.steps[i].phase.Running?
    requires forall k :: 0 <= k < |s.results| ==> s.results[k].taskId != s.status.steps[i].taskId
    ensures var t := PassOf(env, spec, s, clk);
            && |t.final.steps| == |t.looped| == |spec.steps|
            && t.looped[i] == s.status.steps[i] && t.final.steps[i] == s.status.steps[i]
  {
    hide IsTruthy, Pass, StatusOk, ParsedJson, HasSchema, CollectStep;
    PassMirrors(env, spec, s, 0, clk);
    PassStory(env, spec, s, clk, i);
    UnansweredIsNotCollected(s.status.steps[i], s.results, clk.collect);
  }

  lemma UnansweredIsNotCollected(st: StepStatus, results: seq<ResultMsg>, clock: nat -> Time)
    requires st.phase.Running? && forall k :: 0 <= k < |results| ==> results[k].taskId != st.taskId
    ensures CollectStep(st, results, clock, 0, |results|) == st
  {
    AppliedOutcome(st, results, clock, 0, |results|);
  }

  lemma ResultsOnlyGrow(env: Env, spec: FlowSpec, s: Sys, e: Event)
    ensures s.results <= Next(env, spec, s, e).results
  {
    hide Pass, Opens, Interrupted, TurnedAway;
  }

  /** A running step whose ID no result ever carries has the same record in every later state. */
  lemma {:induction false} UnansweredStepKeepsRunning(env: Env, spec: FlowSpec, events: seq<Event>, later: seq<Event>,
                                                      i: nat)
    requires UniqueNames(spec) && FreshIds(env) && LegalRun(env, spec, events + later)
    requires i < |Run(env, spec, events).status.steps| && Run(env, spec, events).status.steps[i].phase.Running?
    requires forall k :: 0 <= k < |Run(env, spec, events + later).results| ==>
               Run(env, spec, events + later).results[k].taskId != Run(env, spec, events).status.steps[i].taskId
    ensures i < |Run(env, spec, events + later).status.steps|
    ensures Run(env, spec, events + later).status.steps[i] == Run(env, spec, events).status.steps[i]
    decreases |later|
  {
    hide IsTruthy, Pass, StepsOk, Opens, CutShort;
    if later == [] {
      assert events + later == events;
    } else {
      var more := later[..|later| - 1];
      var before := events + more;
      assert (events + later)[..|events + later| - 1] == before;
      var s := Run(env, spec, before);
      ResultsOnlyGrow(env, spec, s, later[|later| - 1]);
      forall k | 0 <= k < |s.results| ensures s.results[k].taskId != Run(env, spec, events).status.steps[i].taskId {
        assert Run(env, spec, events + later).results[k] == s.results[k];
      }
      UnansweredStepKeepsRunning(env, spec, events, more, i);
      RunInvariant(env, spec, before);
      StatusMirrors(env, spec, s);
      match later[|later| - 1]
      case Reconcile(gate, clk) =>
        if Opens(spec, s.status, gate) {
          PassLeavesUnanswered(env, spec, s, clk, i);
        }
      case EnqueueFails(gate, clk, k) =>
        if Opens(spec, s.status, gate) {
          PassLeavesUnanswered(env, spec, s, clk, i);
          CutShortLeaves(env, spec, s, clk, k, i);
        }
      case _ =>
    }
  }

  lemma CutShortLeaves(env: Env, spec: FlowSpec, s: Sys, clk: PassClock, k: nat, i: nat)
    requires UniqueNames(spec) && StatusOk(env, spec, s) && i < |spec.steps|
    requires |PassOf(env, spec, s, clk).looped| == |PassOf(env, spec, s, clk).final.steps| == |spec.steps|
    requires PassOf(env, spec, s, clk).looped[i] == PassOf(env, spec, s, clk).final.steps[i]
    ensures var q := CutShort(env, spec, s, PassOf(env, spec, s, clk), clk, k).status;
            i < |q.steps| && q.steps[i] == PassOf(env, spec, s, clk).final.steps[i]
  {
    hide Pass, StatusOk, Interrupted;
    InterruptedStory(env, spec, s, clk, k);
  }

  lemma NoResultCarries(env: Env, results: seq<ResultMsg>, w: QueueLineage.World, p: nat)
    requires FreshIds(env) && AnsweredBy(env, results, w) && !QueueLineage.HasResult(w, p)
    ensures forall k :: 0 <= k < |results| ==> results[k].taskId != env.idOf(p)
  {
  }

  /** Once the task of a running step is retried or dead-lettered, the step runs forever and the flow never
      succeeds: it stays Running until it is late, overspent or has a failed step. */
  lemma LostTaskStallsFlow(env: Env, spec: FlowSpec, events: seq<Event>, later: seq<Event>, i: nat,
                           prior: seq<QueueWire.Values>, work: seq<QueueLineage.Event>,
                           moreWork: seq<QueueLineage.Event>, limit: int, p: nat)
    requires UniqueNames(spec) && FreshIds(env) && LegalRun(env, spec, events + later)
    requires i < |Run(env, spec, events).status.steps|
    requires Run(env, spec, events).status.steps[i].phase.Running?
    requires Run(env, spec, events).status.steps[i].taskId == env.idOf(p)
    requires limit <= Decimal.MAX_INT && QueueLineage.LegalRun(prior, work + moreWork, limit)
    requires |prior| <= p && QueueLineage.Lost(QueueLineage.Run(prior, work), p)
    requires AnsweredBy(env, Run(env, spec, events + later).results, QueueLineage.Run(prior, work + moreWork))
    ensures var st := Run(env, spec, events + later).status;
            && i < |st.steps| && st.steps[i] == Run(env, spec, events).status.steps[i]
            && (st.phase.FlowRunning?
                || (st.phase.FlowFailed? && st.startTime.Some? && st.completionTime.Some?
                    && (Late(spec, st.startTime.value, st.completionTime.value) || Overspent(spec, st.steps)
                        || SomeFailed(st.steps))))
  {
    hide IsTruthy, Run, LegalRun, QueueLineage.Run, QueueLineage.LegalRun, QueueLineage.Lost, StepsOk;
    var results := Run(env, spec, events + later).results;
    QueueLineage.LostIsNeverAnswered(prior, work, moreWork, limit, p);
    NoResultCarries(env, results, QueueLineage.Run(prior, work + moreWork), p);
    UnansweredStepKeepsRunning(env, spec, events, later, i);
    RunInvariant(env, spec, events + later);
    EveryEndIsExact(env, spec, events + later);
  }
}

/** All runs of the controller: passes interleaved with an environment that appends results and
    foreign tasks. The invariants every reachable state satisfies. */
module ControllerRuns {
  import opened FlowTypes
  import opened Templates
  import opened FlowLogic
  import opened Controller

  /** `scanned` is the number of result messages the last pass had seen, `clock` its last reading. */
  datatype Sys = Sys(status: FlowStatus, stream: seq<Entry>, results: seq<ResultMsg>, scanned: nat, clock: Time)

  datatype Event =
    | ResultsArrive(msgs: seq<ResultMsg>)
    | OthersSubmit(count: nat)
    | Reconcile(gate: Gate, clk: PassClock)
    | EnqueueFails(gate: Gate, clk: PassClock, k: nat) // a reconcile that cannot enqueue the task of step k

  function Foreign(count: nat): (r: seq<Entry>) {
    seq(count, k => ForeignTask)
  }

  const BOOT := Sys(FRESH_STATUS, [], [], 0, 0)

  ghost function Next(env: Env, spec: FlowSpec, s: Sys, e: Event): (r: Sys) {
    match e
    case ResultsArrive(msgs) => s.(results := s.results + msgs)
    case OthersSubmit(count) => s.(stream := s.stream + Foreign(count))
    case Reconcile(gate, clk) =>
      if Opens(spec, s.status, gate) then
        var t := Pass(env, spec, s.status, s.stream, s.results, 0, clk);
        Sys(t.final, t.board.stream, s.results, |s.results|, clk.finish)
      else s.(status := TurnedAway(spec, s.status, gate), clock := clk.finish)
    case EnqueueFails(gate, clk, k) =>
      if Opens(spec, s.status, gate) then
        CutShort(env, spec, s, Pass(env, spec, s.status, s.stream, s.results, 0, clk), clk, k)
      else s.(status := TurnedAway(spec, s.status, gate), clock := clk.finish)
  }

  /** The state after a pass that could not enqueue the task of step k. */
  ghost function CutShort(env: Env, spec: FlowSpec, s: Sys, t: PassTrace, clk: PassClock, k: nat): (r: Sys)
    requires Pointers(t.ix, t.looped)
  {
    var (status, stream) := Interrupted(env, spec, t, s.stream, clk, k);
    Sys(status, stream, s.results, |s.results|, clk.finish)
  }

  /** Results answer tasks that were submitted before; the clock does not go back. */
  ghost predicate Legal(env: Env, s: Sys, e: Event) {
    match e
    case ResultsArrive(msgs) => forall k, p :: 0 <= k < |msgs| && p >= |s.stream| ==> env.idOf(p) != msgs[k].taskId
    case OthersSubmit(_) => true
    case Reconcile(_, clk) => Monotone(clk, s.clock)
    case EnqueueFails(_, clk, _) => Monotone(clk, s.clock)
  }

  ghost function Run(env: Env, spec: FlowSpec, events: seq<Event>): (s: Sys) {
    if events == [] then BOOT
    else Next(env, spec, Run(env, spec, events[..|events| - 1]), events[|events| - 1])
  }

  ghost predicate LegalRun(env: Env, spec: FlowSpec, events: seq<Event>) {
    events == [] ||
    (LegalRun(env, spec, events[..|events| - 1])
     && Legal(env, Run(env, spec, events[..|events| - 1]), events[|events| - 1]))
  }

  // --- Records --------------------------------------------------------------------------------

  ghost predicate AtMost(t: Option<Time>, bound: Time) {
    t.Some? ==> t.value <= bound
  }

  /** What a record of a given phase contains. */
  ghost predicate RecordOk(step: Step, st: StepStatus, clock: Time) {
    && 0 <= st.iterations <= EffectiveMax(step)
    && AtMost(st.startTime, clock) && AtMost(st.completionTime, clock)
    && (!st.phase.Succeeded? ==> st.output == "" && st.outputJson == "")
    && (match st.phase
        case Pending => st.taskId == "" && st.startTime.None? && st.completionTime.None?
        case Running => st.taskId != "" && st.startTime.Some? && st.completionTime.None?
        case Succeeded => st.taskId != "" && st.startTime.Some? && st.completionTime.Some?
                          && st.startTime.value <= st.completionTime.value
        case Failed => st.taskId == "" && st.completionTime.Some?
        case Skipped => st.taskId == "" && st.completionTime.Some?)
  }

  /** The iterations of step i for which the stream holds a task, in order. */
  function Submissions(stream: seq<Entry>, i: nat): (iterations: seq<int>) {
    if stream == [] then []
    else
      var last := |stream| - 1;
      var e := stream[last];
      Submissions(stream[..last], i) + (if e.FlowTask? && e.step == i then [e.iteration] else [])
  }

  function UpTo(n: nat): (r: seq<int>) {
    seq(n, k => k)
  }

  /** Tasks submitted so far for a record: one for each iteration begun. */
  function Sent(st: StepStatus): (n: int) {
    st.iterations + (if st.phase.Running? || st.phase.Succeeded? then 1 else 0)
  }

  /** The record's task ID was issued for this step in its current iteration. */
  ghost predicate Issued(env: Env, stream: seq<Entry>, i: nat, st: StepStatus) {
    exists p :: 0 <= p < |stream| && IssuedAt(env, stream, i, st, p)
  }

  ghost predicate IssuedAt(env: Env, stream: seq<Entry>, i: nat, st: StepStatus, p: nat)
    requires p < |stream|
  {
    && env.idOf(p) == st.taskId
    && stream[p].FlowTask? && stream[p].step == i && stream[p].iteration == st.iterations
  }

  ghost predicate LedgerOk(env: Env, stream: seq<Entry>, i: nat, st: StepStatus) {
    && st.iterations >= 0
    && Submissions(stream, i) == UpTo(Sent(st))
    && (st.phase.Running? || st.phase.Succeeded? ==> Issued(env, stream, i, st))
  }

  ghost predicate StepsOk(env: Env, spec: FlowSpec, steps: seq<StepStatus>, stream: seq<Entry>, clock: Time) {
    && Mirrors(spec, steps)
    && (forall i :: 0 <= i < |steps| ==> RecordOk(spec.steps[i], steps[i], clock))
    && (forall i :: 0 <= i < |steps| ==> LedgerOk(env, stream, i, steps[i]))
  }

  ghost predicate StatusOk(env: Env, spec: FlowSpec, s: Sys) {
    var st := s.status;
    if st.phase.Unset? then
      && st.steps == [] && st.startTime.None? && st.completionTime.None?
      && (forall i :: 0 <= i < |spec.steps| ==> Submissions(s.stream, i) == [])
    else
      && StepsOk(env, spec, st.steps, s.stream, s.clock)
      && st.startTime.Some? && st.startTime.value <= s.clock
      && !st.phase.FlowPending?
      && (st.completionTime.Some? <==> st.phase.Terminal())
  }

  /** No message carries an ID that Redis has yet to give out. */
  ghost predicate ResultsKnown(env: Env, s: Sys) {
    forall k, p :: 0 <= k < |s.results| && p >= |s.stream| ==> env.idOf(p) != s.results[k].taskId
  }

  /** What was scanned by the last pass is of no use to any step that still runs. */
  ghost predicate NothingMissed(s: Sys) {
    s.scanned <= |s.results| &&
    forall k, i :: 0 <= k < s.scanned && 0 <= i < |s.status.steps| && s.status.steps[i].phase.Running? ==>
      s.results[k].taskId != s.status.steps[i].taskId
  }

  ghost predicate Inv(env: Env, spec: FlowSpec, s: Sys) {
    StatusOk(env, spec, s) && ResultsKnown(env, s) && NothingMissed(s)
  }

  // --- The ledger -----------------------------------------------------------------------------

  lemma SubmissionsOfAppend(stream: seq<Entry>, e: Entry, i: nat)
    ensures Submissions(stream + [e], i) ==
            Submissions(stream, i) + (if e.FlowTask? && e.step == i then [e.iteration] else [])
  {
    assert (stream + [e])[..|stream|] == stream;
  }

  lemma {:induction false} SubmissionsIgnoreOthers(stream: seq<Entry>, count: nat, i: nat)
    ensures Submissions(stream + Foreign(count), i) == Submissions(stream, i)
  {
    if count == 0 {
      assert stream + Foreign(count) == stream;
    } else {
      SubmissionsIgnoreOthers(stream, count - 1, i);
      assert stream + Foreign(count) == (stream + Foreign(count - 1)) + [ForeignTask];
      SubmissionsOfAppend(stream + Foreign(count - 1), ForeignTask, i);
    }
  }

  lemma IssuedSurvives(env: Env, stream: seq<Entry>, more: seq<Entry>, i: nat, st: StepStatus)
    requires Issued(env, stream, i, st)
    ensures Issued(env, stream + more, i, st)
  {
    var p :| 0 <= p < |stream| && IssuedAt(env, stream, i, st, p);
    assert IssuedAt(env, stream + more, i, st, p);
  }

  /** In-flight steps have distinct task IDs. */
  lemma TaskIdsAreDistinct(env: Env, stream: seq<Entry>, i: nat, a: StepStatus, j: nat, b: StepStatus)
    requires FreshIds(env) && Issued(env, stream, i, a) && Issued(env, stream, j, b) && i != j
    ensures a.taskId != b.taskId
  {
    var p :| 0 <= p < |stream| && IssuedAt(env, stream, i, a, p);
    var q :| 0 <= q < |stream| && IssuedAt(env, stream, j, b, q);
  }

  // --- One stage at a time --------------------------------------------------------------------

  /** Collecting either leaves an in-flight record alone, because no message carries its ID, or
      completes it with the last message that does. */
  lemma {:induction false} AppliedOutcome(st: StepStatus, results: seq<ResultMsg>, clock: nat -> Time, lo: nat, hi: nat)
    requires hi <= |results| && st.phase.Running?
    ensures var r := Applied(st, results, clock, lo, hi);
            || (r == st && forall k :: lo <= k < hi ==> results[k].taskId != st.taskId)
            || (exists k :: lo <= k < hi && CompletedBy(st, r, results[k], clock(k)))
    decreases hi
  {
    if lo < hi {
      AppliedOutcome(st, results, clock, lo, hi - 1);
      var s := Applied(st, results, clock, lo, hi - 1);
      if results[hi - 1].taskId == st.taskId {
        assert CompletedBy(st, Complete(s, results[hi - 1], clock(hi - 1)), results[hi - 1], clock(hi - 1));
      } else if s != st {
        var k :| lo <= k < hi - 1 && CompletedBy(st, s, results[k], clock(k));
      }
    }
  }

  /** The record r is st completed by the message m at the given time. */
  ghost predicate CompletedBy(st: StepStatus, r: StepStatus, m: ResultMsg, now: Time) {
    && m.taskId == st.taskId
    && r == st.(phase := Succeeded, output := m.result, completionTime := Some(now), tokenUsage := r.tokenUsage)
  }

  lemma CollectKeepsStep(env: Env, step: Step, stream: seq<Entry>, i: nat, st: StepStatus, results: seq<ResultMsg>,
                         clock: nat -> Time, lo: nat, before: Time, after: Time)
    requires RecordOk(step, st, before) && LedgerOk(env, stream, i, st)
    requires lo <= |results| && before <= after && forall k :: before <= clock(k) <= after
    ensures var r := CollectStep(st, results, clock, lo, |results|);
            && RecordOk(step, r, after) && LedgerOk(env, stream, i, r)
            && (r.phase.Running? ==> r == st && forall k :: lo <= k < |results| ==> results[k].taskId != st.taskId)
  {
    if st.phase.Running? {
      AppliedOutcome(st, results, clock, lo, |results|);
      var r := CollectStep(st, results, clock, lo, |results|);
      if r != st {
        var p :| 0 <= p < |stream| && IssuedAt(env, stream, i, st, p);
        assert IssuedAt(env, stream, i, r, p);
      }
    }
  }

  lemma SameLedger(env: Env, stream: seq<Entry>, i: nat, a: StepStatus, b: StepStatus)
    requires LedgerOk(env, stream, i, a) && b.iterations >= 0 && Sent(b) == Sent(a)
    requires b.phase.Running? || b.phase.Succeeded? ==>
               (a.phase.Running? || a.phase.Succeeded?) && b.taskId == a.taskId && b.iterations == a.iterations
    ensures LedgerOk(env, stream, i, b)
  {
    if b.phase.Running? || b.phase.Succeeded? {
      var p :| 0 <= p < |stream| && IssuedAt(env, stream, i, a, p);
      assert IssuedAt(env, stream, i, b, p);
    }
  }

  lemma ParseKeepsStep(env: Env, spec: FlowSpec, step: Step, stream: seq<Entry>, i: nat, st: StepStatus, clock: Time)
    requires RecordOk(step, st, clock) && LedgerOk(env, stream, i, st)
    ensures var r := ParseStep(env.engine, spec, st); RecordOk(step, r, clock) && LedgerOk(env, stream, i, r)
  {
    hide ParsedJson, HasSchema;
    SameLedger(env, stream, i, st, ParseStep(env.engine, spec, st));
  }

  lemma RearmKeepsStep(env: Env, step: Step, stream: seq<Entry>, i: nat, st: StepStatus, data: TemplateData,
                       clock: Time)
    requires RecordOk(step, st, clock) && LedgerOk(env, stream, i, st)
    requires RepetitionDue(env.engine, step, st, data)
    ensures var r := Rearm(st, LoopCap(step.loop.value)); RecordOk(step, r, clock) && LedgerOk(env, stream, i, r)
  {
    hide IsTruthy;
    SameLedger(env, stream, i, st, Rearm(st, LoopCap(step.loop.value)));
  }

  lemma SettledRecordOk(env: Env, step: Step, stream: seq<Entry>, k: nat, st: StepStatus, r: StepStatus, now: Time,
                        clock: Time)
    requires RecordOk(step, st, clock) && LedgerOk(env, stream, k, st) && st.phase.Pending? && now <= clock
    requires r == SkipStep(st, now) || r == RejectStep(st, now)
    ensures RecordOk(step, r, clock) && LedgerOk(env, stream, k, r)
  {
    SameLedger(env, stream, k, st, r);
  }

  lemma LaunchedRecordOk(env: Env, step: Step, st: StepStatus, p: nat, now: Time, clock: Time)
    requires FreshIds(env) && RecordOk(step, st, clock) && st.phase.Pending? && now <= clock
    ensures RecordOk(step, LaunchStep(st, env.idOf(p), now), clock)
  {
  }

  /** Submitting one step keeps every record and the ledger of every step. */
  lemma SubmitKeepsSteps(env: Env, spec: FlowSpec, b: Board, ix: map<string, nat>, data: TemplateData, k: nat,
                         now: Time, clock: Time)
    requires FreshIds(env) && Faithful(spec, ix) && Pointers(ix, b.steps) && k < |spec.steps|
    requires StepsOk(env, spec, b.steps, b.stream, clock) && now <= clock
    ensures var r := SubmitStep(env, spec, b, ix, data, k, now);
            StepsOk(env, spec, r.steps, r.stream, clock)
  {
    hide IsTruthy, ResolvePrompt, SkipsStep, DepsSucceeded, LedgerOk, RecordOk;
    var r := SubmitStep(env, spec, b, ix, data, k, now);
    assert ix[spec.steps[k].name] == k;
    if r != b {
      var st := b.steps[k];
      SettledRecordOk(env, spec.steps[k], b.stream, k, st, SkipStep(st, now), now, clock);
      SettledRecordOk(env, spec.steps[k], b.stream, k, st, RejectStep(st, now), now, clock);
      if r.stream != b.stream {
        LaunchKeepsLedgers(env, spec, b, r, k, now);
        LaunchedRecordOk(env, spec.steps[k], st, |b.stream|, now, clock);
      }
    }
  }

  lemma LaunchKeepsLedgers(env: Env, spec: FlowSpec, b: Board, r: Board, k: nat, now: Time)
    requires k < |b.steps| && forall i :: 0 <= i < |b.steps| ==> LedgerOk(env, b.stream, i, b.steps[i])
    requires b.steps[k].phase.Pending?
    requires exists prompt ::
               r.stream == b.stream + [FlowTask(k, b.steps[k].iterations, prompt, env.streamKey)]
    requires r.steps == b.steps[k := LaunchStep(b.steps[k], env.idOf(|b.stream|), now)]
    ensures forall i :: 0 <= i < |r.steps| ==> LedgerOk(env, r.stream, i, r.steps[i])
  {
    var e := r.stream[|b.stream|];
    assert r.stream == b.stream + [e];
    forall i | 0 <= i < |r.steps| ensures LedgerOk(env, r.stream, i, r.steps[i]) {
      SubmissionsOfAppend(b.stream, e, i);
      if i == k {
        assert UpTo(Sent(b.steps[k])) + [b.steps[k].iterations] == UpTo(Sent(r.steps[k]));
        assert IssuedAt(env, r.stream, k, r.steps[k], |b.stream|);
      } else if r.steps[i].phase.Running? || r.steps[i].phase.Succeeded? {
        IssuedSurvives(env, b.stream, [e], i, b.steps[i]);
      }
    }
  }

  lemma {:induction false} SubmitAllKeepsSteps(env: Env, spec: FlowSpec, b: Board, ix: map<string, nat>,
                                               data: TemplateData, clock: nat -> Time, k: nat, bound: Time)
    requires FreshIds(env) && Faithful(spec, ix) && Pointers(ix, b.steps) && k <= |spec.steps|
    requires StepsOk(env, spec, b.steps, b.stream, bound) && forall i :: clock(i) <= bound
    ensures var r := SubmittedUpTo(env, spec, b, ix, data, clock, k);
            StepsOk(env, spec, r.steps, r.stream, bound)
  {
    hide SubmitStep, StepsOk;
    if k > 0 {
      SubmitAllKeepsSteps(env, spec, b, ix, data, clock, k - 1, bound);
      SubmitKeepsSteps(env, spec, SubmittedUpTo(env, spec, b, ix, data, clock, k - 1), ix, data, k - 1, clock(k - 1),
                       bound);
    }
  }

  // --- A whole pass ---------------------------------------------------------------------------

  /** With unique names, every stage before submission treats each step on its own. */
  lemma PassPointwise(env: Env, spec: FlowSpec, st: FlowStatus, stream: seq<Entry>, results: seq<ResultMsg>, lo: nat,
                      clk: PassClock)
    requires UniqueNames(spec) && lo <= |results|
    requires !st.phase.Unset? ==> Mirrors(spec, st.steps)
    ensures var t := Pass(env, spec, st, stream, results, lo, clk);
            && Faithful(spec, t.ix)
            && Mirrors(spec, t.init.steps) && Mirrors(spec, t.parsed) && Mirrors(spec, t.looped)
            && (forall i :: 0 <= i < |spec.steps| ==>
                  t.collected[i] == CollectStep(t.init.steps[i], results, clk.collect, lo, |results|))
            && (forall i :: 0 <= i < |spec.steps| ==>
                  t.parsed[i] == ParseStep(env.engine, spec, t.collected[i]))
            && (forall i :: 0 <= i < |spec.steps| ==>
                  t.looped[i] == if RepetitionDue(env.engine, spec.steps[i], t.parsed[i], t.data)
                                 then Rearm(t.parsed[i], LoopCap(spec.steps[i].loop.value)) else t.parsed[i])
  {
    hide ParseStep, CollectStep, SubmittedUpTo, PhaseUpdated, RepetitionDue, Rearm, DataOf, StatusByName,
      LoopsEvaluated, ParseAll;
    var t := Pass(env, spec, st, stream, results, lo, clk);
    UniqueNamesAreFaithful(spec, t.init.steps);
    forall i | 0 <= i < |spec.steps|
      ensures t.collected[i] == CollectStep(t.init.steps[i], results, clk.collect, lo, |results|)
      ensures t.collected[i].name == t.init.steps[i].name
    {
      assert spec.steps[i].name in t.ix && i in t.ix.Values;
      CollectKeepsName(t.init.steps[i], results, clk.collect, lo, |results|);
    }
    ParsePointwise(env.engine, spec, t.collected, t.ix);
    LoopsEvaluatedPointwise(env.engine, spec, t.parsed, t.ix, t.data);
  }

  lemma CollectKeepsName(st: StepStatus, results: seq<ResultMsg>, clock: nat -> Time, lo: nat, hi: nat)
    requires hi <= |results|
    ensures CollectStep(st, results, clock, lo, hi).name == st.name
  {
    AppliedKeepsName(st, results, clock, lo, hi);
  }

  lemma FreshStepsOk(env: Env, spec: FlowSpec, stream: seq<Entry>, clock: Time)
    requires forall i :: 0 <= i < |spec.steps| ==> Submissions(stream, i) == []
    ensures StepsOk(env, spec, InitialSteps(spec), stream, clock)
  {
  }

  /** Records and ledgers are in order after every stage of a pass. */
  lemma PassKeepsSteps(env: Env, spec: FlowSpec, s: Sys, lo: nat, clk: PassClock)
    requires UniqueNames(spec) && FreshIds(env) && lo <= |s.results|
    requires StatusOk(env, spec, s) && Monotone(clk, s.clock)
    ensures var t := Pass(env, spec, s.status, s.stream, s.results, lo, clk);
            && StepsOk(env, spec, t.parsed, s.stream, clk.finish)
            && StepsOk(env, spec, t.looped, s.stream, clk.finish)
            && StepsOk(env, spec, t.board.steps, t.board.stream, clk.finish)
            && (forall i, k :: 0 <= i < |spec.steps| && lo <= k < |s.results| && t.collected[i].phase.Running? ==>
                  s.results[k].taskId != t.collected[i].taskId)
  {
    hide IsTruthy, ParseStep, CollectStep, SubmittedUpTo, PhaseUpdated, RecordOk, LedgerOk, Submissions, LoopsEvaluated;
    var t := Pass(env, spec, s.status, s.stream, s.results, lo, clk);
    PassPointwise(env, spec, s.status, s.stream, s.results, lo, clk);
    if s.status.phase.Unset? {
      FreshStepsOk(env, spec, s.stream, s.clock);
    }
    MonotoneBounds(clk, s.clock);
    forall i | 0 <= i < |spec.steps|
      ensures RecordOk(spec.steps[i], t.parsed[i], clk.finish) && LedgerOk(env, s.stream, i, t.parsed[i])
      ensures RecordOk(spec.steps[i], t.looped[i], clk.finish) && LedgerOk(env, s.stream, i, t.looped[i])
      ensures t.collected[i].phase.Running? ==>
                forall k :: lo <= k < |s.results| ==> s.results[k].taskId != t.collected[i].taskId
    {
      CollectKeepsStep(env, spec.steps[i], s.stream, i, t.init.steps[i], s.results, clk.collect, lo, s.clock,
                       clk.finish);
      ParseKeepsStep(env, spec, spec.steps[i], s.stream, i, t.collected[i], clk.finish);
      if RepetitionDue(env.engine, spec.steps[i], t.parsed[i], t.data) {
        RearmKeepsStep(env, spec.steps[i], s.stream, i, t.parsed[i], t.data, clk.finish);
      }
    }
    SubmitAllKeepsSteps(env, spec, Board(t.looped, s.stream), t.ix, t.data, clk.submit, |spec.steps|, clk.finish);
  }

  lemma MonotoneBounds(clk: PassClock, before: Time)
    requires Monotone(clk, before)
    ensures before <= clk.start <= clk.finish
    ensures forall k :: before <= clk.collect(k) <= clk.finish
    ensures forall k :: before <= clk.submit(k) <= clk.finish
  {
    forall k: nat ensures before <= clk.collect(k) <= clk.finish && before <= clk.submit(k) <= clk.finish {
      assert clk.collect(k) <= clk.submit(k);
    }
    assert before <= clk.collect(0) <= clk.finish;
  }

  // --- What submission does to each step ------------------------------------------------------

  lemma SubmitTouchesOne(env: Env, spec: FlowSpec, b: Board, ix: map<string, nat>, data: TemplateData, k: nat,
                         now: Time)
    requires Faithful(spec, ix) && Pointers(ix, b.steps) && k < |spec.steps| && Mirrors(spec, b.steps)
    ensures var r := SubmitStep(env, spec, b, ix, data, k, now);
            b.stream <= r.stream && forall i :: 0 <= i < |b.steps| && i != k ==> r.steps[i] == b.steps[i]
  {
    hide IsTruthy, ResolvePrompt;
    assert ix[spec.steps[k].name] == k;
  }

  lemma {:induction false} SubmittedMirrors(env: Env, spec: FlowSpec, b: Board, ix: map<string, nat>,
                                            data: TemplateData, clock: nat -> Time, k: nat)
    requires Pointers(ix, b.steps) && k <= |spec.steps| && Mirrors(spec, b.steps)
    ensures Mirrors(spec, SubmittedUpTo(env, spec, b, ix, data, clock, k).steps)
  {
    hide IsTruthy, ResolvePrompt, DepsSucceeded;
    if k > 0 {
      SubmittedMirrors(env, spec, b, ix, data, clock, k - 1);
    }
  }

  lemma {:induction false} SubmitPrefix(env: Env, spec: FlowSpec, b: Board, ix: map<string, nat>, data: TemplateData,
                                        clock: nat -> Time, j: nat, k: nat)
    requires Faithful(spec, ix) && Pointers(ix, b.steps) && j <= k <= |spec.steps| && Mirrors(spec, b.steps)
    ensures SubmittedUpTo(env, spec, b, ix, data, clock, j).stream <=
            SubmittedUpTo(env, spec, b, ix, data, clock, k).stream
    ensures forall i :: 0 <= i < j || k <= i < |spec.steps| ==>
              SubmittedUpTo(env, spec, b, ix, data, clock, j).steps[i] ==
              SubmittedUpTo(env, spec, b, ix, data, clock, k).steps[i]
    decreases k
  {
    hide SubmitStep, Faithful;
    if j < k {
      SubmitPrefix(env, spec, b, ix, data, clock, j, k - 1);
      SubmittedMirrors(env, spec, b, ix, data, clock, k - 1);
      SubmitTouchesOne(env, spec, SubmittedUpTo(env, spec, b, ix, data, clock, k - 1), ix, data, k - 1, clock(k - 1));
    }
  }

  /** What the turn of step i does to it. */
  lemma TurnOf(env: Env, spec: FlowSpec, b: Board, ix: map<string, nat>, data: TemplateData, i: nat, now: Time)
    requires Faithful(spec, ix) && Pointers(ix, b.steps) && i < |spec.steps| == |b.steps|
    ensures var r := SubmitStep(env, spec, b, ix, data, i, now);
            var was := b.steps[i];
            if !was.phase.Pending? || !DepsSucceeded(spec.steps[i].dependsOn, b.steps, ix) then r.steps[i] == was
            else if SkipsStep(env.engine, spec.steps[i], data) then r.steps[i] == SkipStep(was, now)
            else
              match ResolvePrompt(env.engine, spec.steps[i], data)
              case None => r.steps[i] == RejectStep(was, now)
              case Some(prompt) =>
                && r.steps[i] == LaunchStep(was, env.idOf(|b.stream|), now)
                && r.stream == b.stream + [FlowTask(i, was.iterations, prompt, env.streamKey)]
  {
    hide IsTruthy, ResolvePrompt, SkipsStep, DepsSucceeded;
    assert ix[spec.steps[i].name] == i;
  }

  lemma SubmittedUnfolds(env: Env, spec: FlowSpec, b: Board, ix: map<string, nat>, data: TemplateData,
                         clock: nat -> Time, k: nat)
    requires Pointers(ix, b.steps) && k < |spec.steps|
    ensures SubmittedUpTo(env, spec, b, ix, data, clock, k + 1) ==
            SubmitStep(env, spec, SubmittedUpTo(env, spec, b, ix, data, clock, k), ix, data, k, clock(k))
  {
    hide SubmitStep;
  }

  /** The fate of step i in the first n turns of a submission round, its own among them. */
  lemma FateBy(env: Env, spec: FlowSpec, b: Board, ix: map<string, nat>, data: TemplateData, clock: nat -> Time,
               i: nat, n: nat)
    requires Faithful(spec, ix) && Pointers(ix, b.steps) && i < n <= |spec.steps| && Mirrors(spec, b.steps)
    ensures var r := SubmittedUpTo(env, spec, b, ix, data, clock, n);
            var turn := SubmittedUpTo(env, spec, b, ix, data, clock, i);
            var was := b.steps[i];
            && b.stream <= turn.stream <= r.stream
            && turn.steps[i] == was
            && (if !was.phase.Pending? || !DepsSucceeded(spec.steps[i].dependsOn, turn.steps, ix) then r.steps[i] == was
                else if SkipsStep(env.engine, spec.steps[i], data) then r.steps[i] == SkipStep(was, clock(i))
                else
                  match ResolvePrompt(env.engine, spec.steps[i], data)
                  case None => r.steps[i] == RejectStep(was, clock(i))
                  case Some(prompt) =>
                    && r.steps[i] == LaunchStep(was, env.idOf(|turn.stream|), clock(i))
                    && |turn.stream| < |r.stream|
                    && r.stream[|turn.stream|] == FlowTask(i, was.iterations, prompt, env.streamKey))
  {
    hide SubmittedUpTo, SubmitStep, ResolvePrompt, SkipsStep, DepsSucceeded;
    SubmittedNone(env, spec, b, ix, data, clock);
    SubmitPrefix(env, spec, b, ix, data, clock, 0, i);
    SubmitPrefix(env, spec, b, ix, data, clock, i, n);
    SubmitPrefix(env, spec, b, ix, data, clock, i + 1, n);
    SubmittedUnfolds(env, spec, b, ix, data, clock, i);
    TurnOf(env, spec, SubmittedUpTo(env, spec, b, ix, data, clock, i), ix, data, i, clock(i));
  }

  /** The fate of step i in a submission round. Its dependencies are judged when its turn comes, so
      a dependency skipped earlier in the same round counts. */
  lemma SubmitFate(env: Env, spec: FlowSpec, b: Board, ix: map<string, nat>, data: TemplateData, clock: nat -> Time,
                   i: nat)
    requires Faithful(spec, ix) && Pointers(ix, b.steps) && i < |spec.steps| && Mirrors(spec, b.steps)
    ensures var r := SubmittedUpTo(env, spec, b, ix, data, clock, |spec.steps|);
            var turn := SubmittedUpTo(env, spec, b, ix, data, clock, i);
            var was := b.steps[i];
            && b.stream <= turn.stream <= r.stream
            && turn.steps[i] == was
            && (if !was.phase.Pending? || !DepsSucceeded(spec.steps[i].dependsOn, turn.steps, ix) then r.steps[i] == was
                else if SkipsStep(env.engine, spec.steps[i], data) then r.steps[i] == SkipStep(was, clock(i))
                else
                  match ResolvePrompt(env.engine, spec.steps[i], data)
                  case None => r.steps[i] == RejectStep(was, clock(i))
                  case Some(prompt) =>
                    && r.steps[i] == LaunchStep(was, env.idOf(|turn.stream|), clock(i))
                    && |turn.stream| < |r.stream|
                    && r.stream[|turn.stream|] == FlowTask(i, was.iterations, prompt, env.streamKey))
  {
    hide SubmittedUpTo, ResolvePrompt, SkipsStep, DepsSucceeded;
    FateBy(env, spec, b, ix, data, clock, i, |spec.steps|);
  }

  /** A step whose dependencies are all done before the round starts is taken. */
  lemma DepsStayDone(env: Env, spec: FlowSpec, b: Board, ix: map<string, nat>, data: TemplateData, clock: nat -> Time,
                     i: nat)
    requires Faithful(spec, ix) && Pointers(ix, b.steps) && i < |spec.steps| && Mirrors(spec, b.steps)
    requires DepsSucceeded(spec.steps[i].dependsOn, b.steps, ix)
    ensures DepsSucceeded(spec.steps[i].dependsOn, SubmittedUpTo(env, spec, b, ix, data, clock, i).steps, ix)
  {
    hide IsTruthy, SubmittedUpTo;
    forall d | d in spec.steps[i].dependsOn
      ensures DepDone(d, SubmittedUpTo(env, spec, b, ix, data, clock, i).steps, ix)
    {
      assert DepDone(d, b.steps, ix);
      SubmitFateBefore(env, spec, b, ix, data, clock, ix[d], i);
    }
  }

  /** Only pending steps change in a round. */
  lemma SubmitFateBefore(env: Env, spec: FlowSpec, b: Board, ix: map<string, nat>, data: TemplateData,
                         clock: nat -> Time, j: nat, k: nat)
    requires Faithful(spec, ix) && Pointers(ix, b.steps) && j < |spec.steps| && k <= |spec.steps|
    requires Mirrors(spec, b.steps)
    ensures !b.steps[j].phase.Pending? ==>
              SubmittedUpTo(env, spec, b, ix, data, clock, k).steps[j] == b.steps[j]
    ensures SubmittedUpTo(env, spec, b, ix, data, clock, k).steps[j].phase.Done() ==>
              SubmittedUpTo(env, spec, b, ix, data, clock, |spec.steps|).steps[j].phase.Done()
  {
    hide IsTruthy, SubmittedUpTo;
    SubmitFate(env, spec, b, ix, data, clock, j);
    if j < k {
      SubmitPrefix(env, spec, b, ix, data, clock, k, |spec.steps|);
    } else {
      SubmitPrefix(env, spec, b, ix, data, clock, 0, k);
      SubmittedNone(env, spec, b, ix, data, clock);
    }
  }

  lemma SubmittedNone(env: Env, spec: FlowSpec, b: Board, ix: map<string, nat>, data: TemplateData, clock: nat -> Time)
    requires Pointers(ix, b.steps)
    ensures SubmittedUpTo(env, spec, b, ix, data, clock, 0) == b
  {
  }

  /** A step that leaves Pending does so with every dependency done, also at the end of the round. */
  lemma LeavingPendingNeedsDeps(env: Env, spec: FlowSpec, b: Board, ix: map<string, nat>, data: TemplateData,
                                clock: nat -> Time, i: nat)
    requires Faithful(spec, ix) && Pointers(ix, b.steps) && i < |spec.steps| && Mirrors(spec, b.steps)
    requires SubmittedUpTo(env, spec, b, ix, data, clock, |spec.steps|).steps[i] != b.steps[i]
    ensures DepsSucceeded(spec.steps[i].dependsOn, SubmittedUpTo(env, spec, b, ix, data, clock, |spec.steps|).steps, ix)
  {
    hide IsTruthy, SubmittedUpTo;
    SubmitFate(env, spec, b, ix, data, clock, i);
    var turn := SubmittedUpTo(env, spec, b, ix, data, clock, i);
    forall d | d in spec.steps[i].dependsOn
      ensures DepDone(d, SubmittedUpTo(env, spec, b, ix, data, clock, |spec.steps|).steps, ix)
    {
      assert DepDone(d, turn.steps, ix);
      SubmitFateBefore(env, spec, b, ix, data, clock, ix[d], i);
    }
  }

  /** What submission may turn a record into. */
  ghost predicate Submitted(a: StepStatus, b: StepStatus, now: Time) {
    || b == a
    || (a.phase.Pending?
        && (b == SkipStep(a, now) || b == RejectStep(a, now) || exists id :: b == LaunchStep(a, id, now)))
  }

  lemma SubmitEffect(env: Env, spec: FlowSpec, b: Board, ix: map<string, nat>, data: TemplateData, clock: nat -> Time,
                     i: nat)
    requires Faithful(spec, ix) && Pointers(ix, b.steps) && i < |spec.steps| && Mirrors(spec, b.steps)
    ensures Submitted(b.steps[i], SubmittedUpTo(env, spec, b, ix, data, clock, |spec.steps|).steps[i], clock(i))
  {
    hide IsTruthy, SubmittedUpTo, ResolvePrompt, SkipsStep, DepsSucceeded, Faithful, Mirrors;
    SubmitFate(env, spec, b, ix, data, clock, i);
  }

  /** The story of one step in one pass. */
  lemma PassStory(env: Env, spec: FlowSpec, s: Sys, clk: PassClock, i: nat)
    requires UniqueNames(spec) && StatusOk(env, spec, s) && i < |spec.steps|
    ensures var t := Pass(env, spec, s.status, s.stream, s.results, 0, clk);
            && |t.init.steps| == |spec.steps|
            && (s.status.phase.Unset? || t.init == s.status)
            && t.collected[i] == CollectStep(t.init.steps[i], s.results, clk.collect, 0, |s.results|)
            && t.parsed[i] == ParseStep(env.engine, spec, t.collected[i])
            && t.looped[i] == (if RepetitionDue(env.engine, spec.steps[i], t.parsed[i], t.data)
                               then Rearm(t.parsed[i], LoopCap(spec.steps[i].loop.value)) else t.parsed[i])
            && Submitted(t.looped[i], t.final.steps[i], clk.submit(i))
  {
    hide IsTruthy, ParseStep, CollectStep, SubmittedUpTo, PhaseUpdated, RepetitionDue, Rearm, DataOf, StatusByName,
      LoopsEvaluated, ParseAll, Collected, StepsOk, Submissions, Submitted;
    StatusMirrors(env, spec, s);
    var t := Pass(env, spec, s.status, s.stream, s.results, 0, clk);
    PassPointwise(env, spec, s.status, s.stream, s.results, 0, clk);
    SubmitEffect(env, spec, Board(t.looped, s.stream), t.ix, t.data, clk.submit, i);
  }

  // --- The invariant --------------------------------------------------------------------------

  lemma StatusMirrors(env: Env, spec: FlowSpec, s: Sys)
    requires StatusOk(env, spec, s)
    ensures !s.status.phase.Unset? ==> Mirrors(spec, s.status.steps)
  {
  }

  /** A step launched in this pass has an ID beyond the stream as the pass found it. */
  lemma LaunchedIdIsFresh(env: Env, spec: FlowSpec, s: Sys, clk: PassClock, i: nat)
    requires UniqueNames(spec) && StatusOk(env, spec, s) && i < |spec.steps|
    requires var t := Pass(env, spec, s.status, s.stream, s.results, 0, clk);
             |t.looped| == |spec.steps| && t.looped[i].phase.Pending? && t.final.steps[i].phase.Running?
    ensures var t := Pass(env, spec, s.status, s.stream, s.results, 0, clk);
            exists p :: p >= |s.stream| && env.idOf(p) == t.final.steps[i].taskId
  {
    hide IsTruthy, SubmittedUpTo, PhaseUpdated, StepsOk, DataOf, StatusByName, Collected, ParseAll, LoopsEvaluated,
      Submissions, ParseStep, CollectStep, RepetitionDue, Rearm, DepsSucceeded, ResolvePrompt, SkipsStep;
    var t := Pass(env, spec, s.status, s.stream, s.results, 0, clk);
    StatusMirrors(env, spec, s);
    PassPointwise(env, spec, s.status, s.stream, s.results, 0, clk);
    SubmitFate(env, spec, Board(t.looped, s.stream), t.ix, t.data, clk.submit, i);
    var turn := SubmittedUpTo(env, spec, Board(t.looped, s.stream), t.ix, t.data, clk.submit, i);
    assert env.idOf(|turn.stream|) == t.final.steps[i].taskId;
  }

  /** A step still running after a pass either was running and found no result, or was launched in
      this pass under an ID that no known result carries. */
  lemma RunningAfterPass(env: Env, spec: FlowSpec, s: Sys, clk: PassClock, i: nat, k: nat)
    requires UniqueNames(spec) && FreshIds(env) && Inv(env, spec, s) && Monotone(clk, s.clock)
    requires i < |spec.steps| && k < |s.results|
    requires Pass(env, spec, s.status, s.stream, s.results, 0, clk).final.steps[i].phase.Running?
    ensures Pass(env, spec, s.status, s.stream, s.results, 0, clk).final.steps[i].taskId != s.results[k].taskId
  {
    hide IsTruthy, Pass, StepsOk, ParsedJson, HasSchema, CollectStep, RepetitionDue;
    var t := Pass(env, spec, s.status, s.stream, s.results, 0, clk);
    PassStory(env, spec, s, clk, i);
    PassKeepsSteps(env, spec, s, 0, clk);
    if t.looped[i].phase.Pending? {
      LaunchedIdIsFresh(env, spec, s, clk, i);
    }
  }

  lemma PhaseAfterPass(env: Env, spec: FlowSpec, s: Sys, lo: nat, clk: PassClock)
    requires StatusOk(env, spec, s) && !s.status.phase.Terminal() && lo <= |s.results| && Monotone(clk, s.clock)
    ensures var f := Pass(env, spec, s.status, s.stream, s.results, lo, clk).final;
            && !f.phase.Unset? && !f.phase.FlowPending?
            && f.startTime.Some? && f.startTime.value <= clk.finish
            && (f.completionTime.Some? <==> f.phase.Terminal())
  {
    hide IsTruthy, SubmittedUpTo, ResolvePrompt, FlowOutput, TokenSum, InputTokens, OutputTokens, AnyFailed, AllDone,
      StepsOk, Collected, ParseAll, LoopsEvaluated, DataOf, StatusByName, Deadline, Submissions;
    MonotoneBounds(clk, s.clock);
  }

  lemma PassKeepsInv(env: Env, spec: FlowSpec, s: Sys, clk: PassClock)
    requires UniqueNames(spec) && FreshIds(env) && Inv(env, spec, s) && Monotone(clk, s.clock)
    requires !s.status.phase.Terminal()
    ensures var t := Pass(env, spec, s.status, s.stream, s.results, 0, clk);
            Inv(env, spec, Sys(t.final, t.board.stream, s.results, |s.results|, clk.finish))
  {
    hide Pass, StepsOk, Submissions;
    var t := Pass(env, spec, s.status, s.stream, s.results, 0, clk);
    PassKeepsSteps(env, spec, s, 0, clk);
    PhaseAfterPass(env, spec, s, 0, clk);
    StreamGrows(env, spec, s, 0, clk);
    var r := Sys(t.final, t.board.stream, s.results, |s.results|, clk.finish);
    assert StatusOk(env, spec, r);
    PassMirrors(env, spec, s, 0, clk);
    forall k, i | 0 <= k < |s.results| && 0 <= i < |t.final.steps| && t.final.steps[i].phase.Running?
      ensures s.results[k].taskId != t.final.steps[i].taskId
    {
      RunningAfterPass(env, spec, s, clk, i, k);
    }
  }

  /** A pass that stops because a task cannot be enqueued leaves every step either as the loops or as
      the whole round would leave it. */
  lemma InterruptedStory(env: Env, spec: FlowSpec, s: Sys, clk: PassClock, k: nat)
    requires UniqueNames(spec) && StatusOk(env, spec, s)
    ensures var t := Pass(env, spec, s.status, s.stream, s.results, 0, clk);
            var (status, stream) := Interrupted(env, spec, t, s.stream, clk, k);
            && Mirrors(spec, status.steps) && |t.looped| == |t.final.steps| == |spec.steps|
            && status == t.init.(steps := status.steps)
            && s.stream <= stream <= t.board.stream
            && forall i :: 0 <= i < |spec.steps| ==>
                 status.steps[i] == if i < k then t.final.steps[i] else t.looped[i]
  {
    hide Pass, StatusOk, SubmittedUpTo;
    var t := Pass(env, spec, s.status, s.stream, s.results, 0, clk);
    var n := if k <= |spec.steps| then k else |spec.steps|;
    var b0 := Board(t.looped, s.stream);
    StatusMirrors(env, spec, s);
    PassPointwise(env, spec, s.status, s.stream, s.results, 0, clk);
    BoardOfPass(env, spec, s, clk);
    SubmittedMirrors(env, spec, b0, t.ix, t.data, clk.submit, n);
    SubmittedNone(env, spec, b0, t.ix, t.data, clk.submit);
    SubmitPrefix(env, spec, b0, t.ix, t.data, clk.submit, 0, n);
    SubmitPrefix(env, spec, b0, t.ix, t.data, clk.submit, n, |spec.steps|);
  }

  /** Such a pass keeps the invariant as well. */
  lemma InterruptedPassKeepsInv(env: Env, spec: FlowSpec, s: Sys, clk: PassClock, k: nat)
    requires UniqueNames(spec) && FreshIds(env) && Inv(env, spec, s) && Monotone(clk, s.clock)
    requires !s.status.phase.Terminal()
    ensures Inv(env, spec, CutShort(env, spec, s, Pass(env, spec, s.status, s.stream, s.results, 0, clk), clk, k))
  {
    hide Pass, StepsOk, Submissions, SubmittedUpTo;
    var t := Pass(env, spec, s.status, s.stream, s.results, 0, clk);
    var n := if k <= |spec.steps| then k else |spec.steps|;
    var b0 := Board(t.looped, s.stream);
    var b := SubmittedUpTo(env, spec, b0, t.ix, t.data, clk.submit, n);
    StatusMirrors(env, spec, s);
    PassPointwise(env, spec, s.status, s.stream, s.results, 0, clk);
    PassKeepsSteps(env, spec, s, 0, clk);
    MonotoneBounds(clk, s.clock);
    SubmitAllKeepsSteps(env, spec, b0, t.ix, t.data, clk.submit, n, clk.finish);
    StartOfPass(env, spec, s, clk);
    InterruptedStory(env, spec, s, clk, k);
    forall m, i | 0 <= m < |s.results| && 0 <= i < |b.steps| && b.steps[i].phase.Running?
      ensures s.results[m].taskId != b.steps[i].taskId
    {
      PassStory(env, spec, s, clk, i);
      RunningAfterPass(env, spec, s, clk, i, m);
    }
  }

  lemma StartOfPass(env: Env, spec: FlowSpec, s: Sys, clk: PassClock)
    requires StatusOk(env, spec, s) && !s.status.phase.Terminal() && Monotone(clk, s.clock)
    ensures var f := Pass(env, spec, s.status, s.stream, s.results, 0, clk).init;
            && !f.phase.Unset? && !f.phase.FlowPending? && !f.phase.Terminal()
            && f.startTime.Some? && f.startTime.value <= clk.finish && f.completionTime.None?
  {
    hide IsTruthy, SubmittedUpTo, PhaseUpdated, StepsOk, Collected, ParseAll, LoopsEvaluated, DataOf, StatusByName,
      Submissions;
    MonotoneBounds(clk, s.clock);
  }

  lemma BoardOfPass(env: Env, spec: FlowSpec, s: Sys, clk: PassClock)
    ensures var t := Pass(env, spec, s.status, s.stream, s.results, 0, clk);
            && t.board == SubmittedUpTo(env, spec, Board(t.looped, s.stream), t.ix, t.data, clk.submit, |spec.steps|)
            && t.final.steps == t.board.steps
  {
    hide IsTruthy, SubmittedUpTo, PhaseUpdated, Collected, ParseAll, LoopsEvaluated, DataOf, StatusByName;
  }

  lemma PassMirrors(env: Env, spec: FlowSpec, s: Sys, lo: nat, clk: PassClock)
    requires UniqueNames(spec) && StatusOk(env, spec, s) && lo <= |s.results|
    ensures Mirrors(spec, Pass(env, spec, s.status, s.stream, s.results, lo, clk).final.steps)
  {
    hide IsTruthy, SubmittedUpTo, PhaseUpdated, Collected, ParseAll, LoopsEvaluated, DataOf, StatusByName, StepsOk;
    StatusMirrors(env, spec, s);
    var t := Pass(env, spec, s.status, s.stream, s.results, lo, clk);
    PassPointwise(env, spec, s.status, s.stream, s.results, lo, clk);
    SubmittedMirrors(env, spec, Board(t.looped, s.stream), t.ix, t.data, clk.submit, |spec.steps|);
  }

  lemma StreamGrows(env: Env, spec: FlowSpec, s: Sys, lo: nat, clk: PassClock)
    requires UniqueNames(spec) && StatusOk(env, spec, s) && lo <= |s.results|
    ensures s.stream <= Pass(env, spec, s.status, s.stream, s.results, lo, clk).board.stream
  {
    hide IsTruthy, SubmittedUpTo, PhaseUpdated, Collected, ParseAll, LoopsEvaluated, DataOf, StatusByName, StepsOk;
    StatusMirrors(env, spec, s);
    var t := Pass(env, spec, s.status, s.stream, s.results, lo, clk);
    PassPointwise(env, spec, s.status, s.stream, s.results, lo, clk);
    SubmittedNone(env, spec, Board(t.looped, s.stream), t.ix, t.data, clk.submit);
    SubmitPrefix(env, spec, Board(t.looped, s.stream), t.ix, t.data, clk.submit, 0, |spec.steps|);
  }

  lemma ForeignTasksKeepInv(env: Env, spec: FlowSpec, s: Sys, count: nat)
    requires Inv(env, spec, s)
    ensures Inv(env, spec, s.(stream := s.stream + Foreign(count)))
  {
    var more := Foreign(count);
    forall i: nat | i < |spec.steps| ensures Submissions(s.stream + more, i) == Submissions(s.stream, i) {
      SubmissionsIgnoreOthers(s.stream, count, i);
    }
    forall i | 0 <= i < |s.status.steps| && Issued(env, s.stream, i, s.status.steps[i])
      ensures Issued(env, s.stream + more, i, s.status.steps[i])
    {
      IssuedSurvives(env, s.stream, more, i, s.status.steps[i]);
    }
  }

  lemma OpensWhenNotTerminal(spec: FlowSpec, st: FlowStatus, gate: Gate)
    requires Opens(spec, st, gate)
    ensures !st.phase.Terminal()
  {
  }

  lemma MoreResultsKeepInv(env: Env, spec: FlowSpec, s: Sys, msgs: seq<ResultMsg>)
    requires Inv(env, spec, s) && Legal(env, s, ResultsArrive(msgs))
    ensures Inv(env, spec, s.(results := s.results + msgs))
  {
    hide StepsOk, Submissions;
  }

  lemma TurnedAwayKeepsInv(env: Env, spec: FlowSpec, s: Sys, gate: Gate, clk: PassClock)
    requires Inv(env, spec, s) && Monotone(clk, s.clock)
    ensures Inv(env, spec, s.(status := TurnedAway(spec, s.status, gate), clock := clk.finish))
  {
    hide LedgerOk, Submissions;
    MonotoneBounds(clk, s.clock);
  }

  lemma NextKeepsInv(env: Env, spec: FlowSpec, s: Sys, e: Event)
    requires UniqueNames(spec) && FreshIds(env) && Inv(env, spec, s) && Legal(env, s, e)
    ensures Inv(env, spec, Next(env, spec, s, e))
  {
    hide Inv, Opens, Pass, TurnedAway, CutShort;
    match e
    case ResultsArrive(msgs) => MoreResultsKeepInv(env, spec, s, msgs);
    case OthersSubmit(count) => ForeignTasksKeepInv(env, spec, s, count);
    case Reconcile(gate, clk) =>
      if Opens(spec, s.status, gate) {
        OpensWhenNotTerminal(spec, s.status, gate);
        PassKeepsInv(env, spec, s, clk);
      } else {
        TurnedAwayKeepsInv(env, spec, s, gate, clk);
      }
    case EnqueueFails(gate, clk, k) =>
      if Opens(spec, s.status, gate) {
        OpensWhenNotTerminal(spec, s.status, gate);
        InterruptedPassKeepsInv(env, spec, s, clk, k);
      } else {
        TurnedAwayKeepsInv(env, spec, s, gate, clk);
      }
  }

  /** Every reachable state satisfies the invariant. */
  lemma {:induction false} RunInvariant(env: Env, spec: FlowSpec, events: seq<Event>)
    requires UniqueNames(spec) && FreshIds(env) && LegalRun(env, spec, events)
    ensures Inv(env, spec, Run(env, spec, events))
  {
    if events != [] {
      RunInvariant(env, spec, events[..|events| - 1]);
      NextKeepsInv(env, spec, Run(env, spec, events[..|events| - 1]), events[|events| - 1]);
    }
  }
}

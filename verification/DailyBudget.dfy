/** The rolling daily token budget of an agent, and when its replicas come back. */
module DailyBudget {
  import opened FlowTypes
  import FlowLogic

  const MINUTE := 60 * NANOS_PER_SECOND
  const HOUR := 3600 * NANOS_PER_SECOND

  /** What the budget reads of a flow. */
  datatype FlowUsage = FlowUsage(spec: seq<Step>, steps: seq<StepStatus>)

  /** A completed step's usage and when it completed. */
  datatype Charge = Charge(at: Time, usage: TokenUsage)

  /** The agent of each step name; the last step of a name wins. */
  function StepAgents(spec: seq<Step>): (m: map<string, string>) {
    if spec == [] then map[]
    else StepAgents(spec[..|spec| - 1])[spec[|spec| - 1].name := spec[|spec| - 1].arkAgent]
  }

  predicate RunsOn(agents: map<string, string>, name: string, agent: string) {
    (if name in agents then agents[name] else "") == agent
  }

  predicate Charged(agents: map<string, string>, st: StepStatus, agent: string) {
    RunsOn(agents, st.name, agent) && st.tokenUsage.Some? && st.completionTime.Some?
  }

  /** The charges to an agent by the first n records of a flow. */
  function ChargesOf(agents: map<string, string>, steps: seq<StepStatus>, agent: string, n: nat): (cs: seq<Charge>)
    requires n <= |steps|
  {
    if n == 0 then []
    else
      var st := steps[n - 1];
      ChargesOf(agents, steps, agent, n - 1) +
      (if Charged(agents, st, agent) then [Charge(st.completionTime.value, st.tokenUsage.value)] else [])
  }

  /** The charges to an agent by the first n flows. */
  function Charges(flows: seq<FlowUsage>, agent: string, n: nat): (cs: seq<Charge>)
    requires n <= |flows|
  {
    if n == 0 then []
    else
      Charges(flows, agent, n - 1) +
      ChargesOf(StepAgents(flows[n - 1].spec), flows[n - 1].steps, agent, |flows[n - 1].steps|)
  }

  function Plus(a: TokenUsage, b: TokenUsage): (r: TokenUsage) {
    TokenUsage(a.inputTokens + b.inputTokens, a.outputTokens + b.outputTokens, a.totalTokens + b.totalTokens)
  }

  const NOTHING := TokenUsage(0, 0, 0)

  /** The sum of the charges that are not older than the start of the window. */
  function Usage(cs: seq<Charge>, windowStart: Time): (u: TokenUsage) {
    if cs == [] then NOTHING
    else
      var u := Usage(cs[..|cs| - 1], windowStart);
      if cs[|cs| - 1].at >= windowStart then Plus(u, cs[|cs| - 1].usage) else u
  }

  function Earliest(cs: seq<Charge>, windowStart: Time): (t: Option<Time>)
    ensures t.Some? ==> t.value >= windowStart && exists k :: 0 <= k < |cs| && cs[k].at == t.value
    ensures forall k :: 0 <= k < |cs| && cs[k].at >= windowStart ==> t.Some? && t.value <= cs[k].at
  {
    if cs == [] then None
    else
      var last := cs[|cs| - 1].at;
      var t := Earliest(cs[..|cs| - 1], windowStart);
      if last >= windowStart && (t.None? || last < t.value) then Some(last) else t
  }

  // --- The decision ---------------------------------------------------------------------------

  predicate Exceeded(limit: int, cs: seq<Charge>, now: Time) {
    limit > 0 && Usage(cs, now - DAY).totalTokens >= limit
  }

  /** When the controller looks again; zero means only on a change. */
  function RequeueAfter(limit: int, cs: seq<Charge>, now: Time): (d: int) {
    if !Exceeded(limit, cs, now) then 0
    else
      var e := Earliest(cs, now - DAY);
      if e.Some? then e.value + DAY - now + MINUTE else HOUR
  }

  /** Replicas of the agent's deployment: none while the budget is exceeded. */
  function Replicas(wanted: Option<int>, exceeded: bool): (n: int) {
    if exceeded then 0 else if wanted.Some? then wanted.value else 1
  }

  class Agent {
    const name: string
    const limit: int
    const replicas: Option<int>
    var budgetExceeded: bool
    var dailyUsage: Option<TokenUsage>

    constructor (name: string, limit: int, replicas: Option<int>)
      ensures this.name == name && this.limit == limit && this.replicas == replicas
      ensures !budgetExceeded && dailyUsage == None
    {
      this.name, this.limit, this.replicas := name, limit, replicas;
      budgetExceeded, dailyUsage := false, None;
    }

    method StepAgentIndex(spec: seq<Step>) returns (m: map<string, string>)
      ensures m == StepAgents(spec)
    {
      m := map[];
      for i := 0 to |spec|
        invariant m == StepAgents(spec[..i])
      {
        assert spec[..i + 1][..i] == spec[..i];
        m := m[spec[i].name := spec[i].arkAgent];
      }
      assert spec[..|spec|] == spec;
    }

    /** Adds the charges of one flow. */
    method AddFlow(flow: FlowUsage, windowStart: Time, usage0: TokenUsage, earliest0: Option<Time>,
                   ghost base: seq<Charge>)
      returns (usage: TokenUsage, earliestInWindow: Option<Time>)
      requires usage0 == Usage(base, windowStart) && earliest0 == Earliest(base, windowStart)
      ensures var cs := base + ChargesOf(StepAgents(flow.spec), flow.steps, name, |flow.steps|);
              usage == Usage(cs, windowStart) && earliestInWindow == Earliest(cs, windowStart)
    {
      usage, earliestInWindow := usage0, earliest0;
      var stepAgent := StepAgentIndex(flow.spec);
      assert base + ChargesOf(stepAgent, flow.steps, name, 0) == base;
      for k := 0 to |flow.steps|
        invariant usage == Usage(base + ChargesOf(stepAgent, flow.steps, name, k), windowStart)
        invariant earliestInWindow == Earliest(base + ChargesOf(stepAgent, flow.steps, name, k), windowStart)
      {
        var st := flow.steps[k];
        AddCharge(base, stepAgent, flow.steps, name, k, windowStart);
        if (if st.name in stepAgent then stepAgent[st.name] else "") != name {
          continue;
        }
        if st.tokenUsage.None? || st.completionTime.None? {
          continue;
        }
        var t := st.completionTime.value;
        if t < windowStart {
          continue;
        }
        usage := Plus(usage, st.tokenUsage.value);
        if earliestInWindow.None? || t < earliestInWindow.value {
          earliestInWindow := Some(t);
        }
      }
    }

    /** Adds up the usage of this agent over all flows and decides whether its replicas may run. */
    method ReconcileDailyBudget(flows: seq<FlowUsage>, now: Time) returns (requeueAfter: int)
      modifies this
      ensures var cs := Charges(flows, name, |flows|);
              && budgetExceeded == Exceeded(limit, cs, now)
              && requeueAfter == RequeueAfter(limit, cs, now)
              && dailyUsage == if limit > 0 then Some(Usage(cs, now - DAY)) else None
    {
      if limit <= 0 {
        budgetExceeded, dailyUsage := false, None;
        return 0;
      }
      var windowStart := now - DAY;
      var usage := NOTHING;
      var earliestInWindow: Option<Time> := None;
      for i := 0 to |flows|
        invariant usage == Usage(Charges(flows, name, i), windowStart)
        invariant earliestInWindow == Earliest(Charges(flows, name, i), windowStart)
      {
        usage, earliestInWindow := AddFlow(flows[i], windowStart, usage, earliestInWindow, Charges(flows, name, i));
      }
      dailyUsage := Some(usage);
      if usage.totalTokens >= limit {
        budgetExceeded := true;
        if earliestInWindow.Some? {
          var ttl := earliestInWindow.value + DAY - now;
          return ttl + MINUTE;
        }
        return HOUR;
      }
      budgetExceeded := false;
      return 0;
    }

    static lemma AddCharge(base: seq<Charge>, agents: map<string, string>, steps: seq<StepStatus>, agent: string,
                           k: nat, start: Time)
      requires k < |steps|
      ensures var cs := base + ChargesOf(agents, steps, agent, k);
              var next := base + ChargesOf(agents, steps, agent, k + 1);
              var st := steps[k];
              if Charged(agents, st, agent) then
                var c := Charge(st.completionTime.value, st.tokenUsage.value);
                && Usage(next, start) == (if c.at >= start then Plus(Usage(cs, start), c.usage) else Usage(cs, start))
                && Earliest(next, start) ==
                   (if c.at >= start && (Earliest(cs, start).None? || c.at < Earliest(cs, start).value)
                    then Some(c.at) else Earliest(cs, start))
              else next == cs
    {
      var cs := base + ChargesOf(agents, steps, agent, k);
      var next := base + ChargesOf(agents, steps, agent, k + 1);
      if Charged(agents, steps[k], agent) {
        var c := Charge(steps[k].completionTime.value, steps[k].tokenUsage.value);
        assert next == cs + [c];
        assert next[..|next| - 1] == cs;
      }
    }

    method DeploymentReplicas() returns (n: int)
      ensures n == Replicas(replicas, budgetExceeded)
      ensures n == if budgetExceeded then 0 else match replicas case None => 1 case Some(wanted) => wanted
    {
      n := 1;
      if replicas.Some? {
        n := replicas.value;
      }
      if budgetExceeded {
        n := 0;
      }
    }
  }

  // --- Meaning --------------------------------------------------------------------------------

  /** How many charges are in the window. */
  function InWindow(cs: seq<Charge>, windowStart: Time): (n: nat) {
    if cs == [] then 0
    else InWindow(cs[..|cs| - 1], windowStart) + (if cs[|cs| - 1].at >= windowStart then 1 else 0)
  }

  /** Charges of several flows add up, in any grouping. */
  lemma {:induction false} UsageOfConcat(a: seq<Charge>, b: seq<Charge>, start: Time)
    ensures Usage(a + b, start) == Plus(Usage(a, start), Usage(b, start))
  {
    if b == [] {
      assert a + b == a;
    } else {
      assert (a + b)[..|a + b| - 1] == a + b[..|b| - 1];
      UsageOfConcat(a, b[..|b| - 1], start);
    }
  }

  lemma {:induction false} EmptyWindowIsFree(cs: seq<Charge>, start: Time)
    requires forall k :: 0 <= k < |cs| ==> cs[k].at < start
    ensures Usage(cs, start) == NOTHING && InWindow(cs, start) == 0
  {
    if cs != [] {
      EmptyWindowIsFree(cs[..|cs| - 1], start);
    }
  }

  /** While the limit is reached there is an entry in the window, so the one-hour fallback is never
      used and the controller waits at least a minute. */
  lemma ExceededHasExpiry(limit: int, cs: seq<Charge>, now: Time)
    requires Exceeded(limit, cs, now)
    ensures Earliest(cs, now - DAY).Some?
    ensures RequeueAfter(limit, cs, now) ==
            Earliest(cs, now - DAY).value + 86_400 * 1_000_000_000 - now + 60 * 1_000_000_000 >= 60 * 1_000_000_000
  {
    if Earliest(cs, now - DAY).None? {
      EmptyWindowIsFree(cs, now - DAY);
    }
  }

  lemma {:induction false} SameWindow(cs: seq<Charge>, s: Time, t: Time)
    requires s <= t && forall k :: 0 <= k < |cs| && cs[k].at >= s ==> cs[k].at >= t
    ensures Usage(cs, t) == Usage(cs, s) && InWindow(cs, t) == InWindow(cs, s)
  {
    if cs != [] {
      SameWindow(cs[..|cs| - 1], s, t);
    }
  }

  /** While the records of the flows do not change, the sum stays what it is until the oldest entry leaves
      the window. */
  lemma UsageHoldsUntilExpiry(cs: seq<Charge>, now: Time, later: Time)
    requires Earliest(cs, now - DAY).Some? && now <= later <= Earliest(cs, now - DAY).value + DAY
    ensures Usage(cs, later - DAY) == Usage(cs, now - DAY)
  {
    SameWindow(cs, now - DAY, later - DAY);
  }

  lemma {:induction false} WindowShrinks(cs: seq<Charge>, s: Time, t: Time, gone: nat)
    requires s <= t
    ensures InWindow(cs, t) <= InWindow(cs, s)
    ensures gone < |cs| && s <= cs[gone].at < t ==> InWindow(cs, t) < InWindow(cs, s)
  {
    if cs != [] {
      WindowShrinks(cs[..|cs| - 1], s, t, gone);
    }
  }

  /** Every wake-up at unchanged records finds strictly fewer entries in the window. */
  lemma WakeUpFindsFewer(limit: int, cs: seq<Charge>, now: Time, woken: Time)
    requires Exceeded(limit, cs, now) && woken >= now + RequeueAfter(limit, cs, now)
    ensures InWindow(cs, woken - DAY) < InWindow(cs, now - DAY)
  {
    ExceededHasExpiry(limit, cs, now);
    var e := Earliest(cs, now - DAY).value;
    var k :| 0 <= k < |cs| && cs[k].at == e;
    WindowShrinks(cs, now - DAY, woken - DAY, k);
  }

  /** A series of looks while the records of the flows do not change, each no earlier than the previous one
      asked for. */
  predicate WakesInTime(limit: int, cs: seq<Charge>, times: seq<Time>) {
    forall k :: 1 <= k < |times| ==> times[k] >= times[k - 1] + RequeueAfter(limit, cs, times[k - 1])
  }

  /** Replicas are restored after at most as many wake-ups as there are entries in the window. */
  lemma {:induction false} ReplicasComeBack(limit: int, cs: seq<Charge>, times: seq<Time>,
                                            wanted: Option<int>) returns (k: nat)
    requires times != [] && WakesInTime(limit, cs, times) && |times| > InWindow(cs, times[0] - DAY)
    ensures k <= InWindow(cs, times[0] - DAY) && k < |times| && !Exceeded(limit, cs, times[k])
    ensures Replicas(wanted, Exceeded(limit, cs, times[k])) == if wanted.Some? then wanted.value else 1
    decreases |times|
  {
    if Exceeded(limit, cs, times[0]) {
      NonEmptyWhileExceeded(limit, cs, times[0]);
      WakeUpFindsFewer(limit, cs, times[0], times[1]);
      var rest := times[1..];
      forall j | 1 <= j < |rest| ensures rest[j] >= rest[j - 1] + RequeueAfter(limit, cs, rest[j - 1]) {
        assert times[j + 1] >= times[j + 1 - 1] + RequeueAfter(limit, cs, times[j + 1 - 1]);
      }
      k := ReplicasComeBack(limit, cs, rest, wanted);
      k := k + 1;
    } else {
      k := 0;
    }
  }

  lemma NonEmptyWhileExceeded(limit: int, cs: seq<Charge>, now: Time)
    requires Exceeded(limit, cs, now)
    ensures InWindow(cs, now - DAY) > 0
  {
    ExceededHasExpiry(limit, cs, now);
    var e := Earliest(cs, now - DAY).value;
    var k :| 0 <= k < |cs| && cs[k].at == e;
    WindowShrinks(cs, now - DAY, e + 1, k);
  }

  lemma {:induction false} UsageFalls(cs: seq<Charge>, s: Time, t: Time)
    requires s <= t && forall k :: 0 <= k < |cs| ==> cs[k].usage.totalTokens >= 0
    ensures Usage(cs, t).totalTokens <= Usage(cs, s).totalTokens
  {
    if cs != [] {
      UsageFalls(cs[..|cs| - 1], s, t);
    }
  }

  /** Once restored, replicas stay while the records do not change. */
  lemma RestoredStays(limit: int, cs: seq<Charge>, now: Time, later: Time)
    requires now <= later && !Exceeded(limit, cs, now)
    requires forall k :: 0 <= k < |cs| ==> cs[k].usage.totalTokens >= 0
    ensures !Exceeded(limit, cs, later)
  {
    UsageFalls(cs, now - DAY, later - DAY);
  }

  // --- Whose charges --------------------------------------------------------------------------

  /** The record belongs to the agent: the last step of the spec with its name runs on this agent. */
  ghost predicate BelongsTo(flow: FlowUsage, k: nat, agent: string)
    requires k < |flow.steps|
  {
    exists i :: 0 <= i < |flow.spec| && flow.spec[i].name == flow.steps[k].name && flow.spec[i].arkAgent == agent
      && forall j :: i < j < |flow.spec| ==> flow.spec[j].name != flow.steps[k].name
  }

  lemma {:induction false} AgentOfStep(spec: seq<Step>, name: string)
    ensures name in StepAgents(spec) <==> exists i :: 0 <= i < |spec| && spec[i].name == name
    ensures name in StepAgents(spec) ==>
              exists i :: 0 <= i < |spec| && spec[i].name == name && spec[i].arkAgent == StepAgents(spec)[name]
                && forall j :: i < j < |spec| ==> spec[j].name != name
  {
    if spec != [] {
      var last := |spec| - 1;
      var rest := spec[..last];
      AgentOfStep(rest, name);
      if spec[last].name == name {
        assert spec[last].arkAgent == StepAgents(spec)[name];
      } else if name in StepAgents(rest) {
        var i :| 0 <= i < |rest| && rest[i].name == name && rest[i].arkAgent == StepAgents(rest)[name]
          && forall j :: i < j < |rest| ==> rest[j].name != name;
        assert spec[i] == rest[i] && forall j :: i < j < last ==> spec[j] == rest[j];
      }
    }
  }

  lemma BelongingIsRunning(flow: FlowUsage, k: nat, agent: string)
    requires k < |flow.steps| && agent != ""
    ensures RunsOn(StepAgents(flow.spec), flow.steps[k].name, agent) <==> BelongsTo(flow, k, agent)
  {
    hide StepAgents;
    AgentOfStep(flow.spec, flow.steps[k].name);
  }

  /** What a record owes to the usage of the agent: all of its tokens when it belongs to the agent and was
      completed in the last 24 hours, otherwise nothing. */
  ghost function Owed(flow: FlowUsage, k: nat, agent: string, now: Time): (u: TokenUsage)
    requires k < |flow.steps|
  {
    var st := flow.steps[k];
    if BelongsTo(flow, k, agent) && st.tokenUsage.Some? && st.completionTime.Some?
       && st.completionTime.value >= now - 86_400 * 1_000_000_000
    then st.tokenUsage.value else TokenUsage(0, 0, 0)
  }

  function Sum(us: seq<TokenUsage>): (u: TokenUsage) {
    if us == [] then TokenUsage(0, 0, 0)
    else
      var v, last := Sum(us[..|us| - 1]), us[|us| - 1];
      TokenUsage(v.inputTokens + last.inputTokens, v.outputTokens + last.outputTokens, v.totalTokens + last.totalTokens)
  }

  ghost function OwedByFlow(flow: FlowUsage, agent: string, now: Time, n: nat): (u: TokenUsage)
    requires n <= |flow.steps|
  {
    Sum(seq(n, k requires 0 <= k < n => Owed(flow, k, agent, now)))
  }

  ghost function OwedByAll(flows: seq<FlowUsage>, agent: string, now: Time, n: nat): (u: TokenUsage)
    requires n <= |flows|
  {
    Sum(seq(n, f requires 0 <= f < n => OwedByFlow(flows[f], agent, now, |flows[f].steps|)))
  }

  lemma {:induction false} FlowUsageIsOwed(flow: FlowUsage, agent: string, now: Time, n: nat)
    requires n <= |flow.steps| && agent != ""
    ensures Usage(ChargesOf(StepAgents(flow.spec), flow.steps, agent, n), now - DAY) == OwedByFlow(flow, agent, now, n)
  {
    hide Usage, ChargesOf, StepAgents, Owed, Share;
    if n == 0 {
      NoCharges(StepAgents(flow.spec), flow.steps, agent);
      EmptyWindowIsFree([], now - DAY);
    } else {
      FlowUsageIsOwed(flow, agent, now, n - 1);
      UsageOfNext(StepAgents(flow.spec), flow.steps, agent, n - 1, now - DAY);
      ShareIsOwed(flow, n - 1, agent, now);
      var owed := seq(n, k requires 0 <= k < n => Owed(flow, k, agent, now));
      assert owed[..n - 1] == seq(n - 1, k requires 0 <= k < n - 1 => Owed(flow, k, agent, now));
    }
  }

  lemma ShareIsOwed(flow: FlowUsage, k: nat, agent: string, now: Time)
    requires k < |flow.steps| && agent != ""
    ensures Share(StepAgents(flow.spec), flow.steps[k], agent, now - DAY) == Owed(flow, k, agent, now)
  {
    hide StepAgents, RunsOn, BelongsTo;
    BelongingIsRunning(flow, k, agent);
  }

  /** The usage of an agent is the sum of what every record of every flow owes to it. */
  lemma {:induction false} UsageIsOwed(flows: seq<FlowUsage>, agent: string, now: Time, n: nat)
    requires n <= |flows| && agent != ""
    ensures Usage(Charges(flows, agent, n), now - DAY) == OwedByAll(flows, agent, now, n)
  {
    hide ChargesOf, StepAgents, OwedByFlow, Usage;
    if n == 0 {
      EmptyWindowIsFree([], now - DAY);
    } else {
      var flow := flows[n - 1];
      UsageIsOwed(flows, agent, now, n - 1);
      FlowUsageIsOwed(flow, agent, now, |flow.steps|);
      UsageOfConcat(Charges(flows, agent, n - 1), ChargesOf(StepAgents(flow.spec), flow.steps, agent, |flow.steps|),
                    now - DAY);
      var owed := seq(n, f requires 0 <= f < n => OwedByFlow(flows[f], agent, now, |flows[f].steps|));
      assert owed[..n - 1] ==
             seq(n - 1, f requires 0 <= f < n - 1 => OwedByFlow(flows[f], agent, now, |flows[f].steps|));
    }
  }

  /** What the agent's own records owe decides about its replicas: none from the limit on. */
  lemma ReplicasFollowUsage(flows: seq<FlowUsage>, agent: string, limit: int, now: Time, wanted: Option<int>)
    requires agent != ""
    ensures var reached := limit > 0 && OwedByAll(flows, agent, now, |flows|).totalTokens >= limit;
            && (Exceeded(limit, Charges(flows, agent, |flows|), now) <==> reached)
            && Replicas(wanted, Exceeded(limit, Charges(flows, agent, |flows|), now)) ==
               if reached then 0 else match wanted case None => 1 case Some(n) => n
  {
    hide Usage, Charges, OwedByAll;
    UsageIsOwed(flows, agent, now, |flows|);
  }

  /** The records of other agents' steps may differ. */
  ghost predicate DifferElsewhere(a: FlowUsage, b: FlowUsage, agent: string) {
    && b.spec == a.spec && |b.steps| == |a.steps|
    && forall k :: 0 <= k < |a.steps| ==>
         b.steps[k].name == a.steps[k].name && (b.steps[k] == a.steps[k] || !BelongsTo(a, k, agent))
  }

  lemma {:induction false} SameFlowCharges(a: FlowUsage, b: FlowUsage, agent: string, n: nat)
    requires DifferElsewhere(a, b, agent) && n <= |a.steps| && agent != ""
    ensures ChargesOf(StepAgents(b.spec), b.steps, agent, n) == ChargesOf(StepAgents(a.spec), a.steps, agent, n)
  {
    hide StepAgents, RunsOn, BelongsTo;
    if n > 0 {
      SameFlowCharges(a, b, agent, n - 1);
      BelongingIsRunning(a, n - 1, agent);
    }
  }

  /** The usage, the decision and the delay of an agent do not depend on the records of other agents. */
  lemma {:induction false} OthersDoNotMatter(before: seq<FlowUsage>, after: seq<FlowUsage>, agent: string, n: nat,
                                             limit: int, now: Time)
    requires agent != "" && |after| == |before| && n <= |before|
    requires forall f :: 0 <= f < |before| ==> DifferElsewhere(before[f], after[f], agent)
    ensures var cs, ds := Charges(before, agent, n), Charges(after, agent, n);
            && cs == ds && Usage(ds, now - DAY) == Usage(cs, now - DAY)
            && Exceeded(limit, ds, now) == Exceeded(limit, cs, now)
            && RequeueAfter(limit, ds, now) == RequeueAfter(limit, cs, now)
  {
    hide ChargesOf, StepAgents, DifferElsewhere, Usage, Exceeded, RequeueAfter;
    if n > 0 {
      OthersDoNotMatter(before, after, agent, n - 1, limit, now);
      assert DifferElsewhere(before[n - 1], after[n - 1], agent);
      SameSteps(before[n - 1], after[n - 1], agent);
      SameFlowCharges(before[n - 1], after[n - 1], agent, |before[n - 1].steps|);
    }
  }

  lemma SameSteps(a: FlowUsage, b: FlowUsage, agent: string)
    requires DifferElsewhere(a, b, agent)
    ensures b.spec == a.spec && |b.steps| == |a.steps|
  {
  }

  // --- Re-armed steps -------------------------------------------------------------------------

  /** A loop that re-arms a step clears its completion time and keeps its usage: the charge is gone. */
  ghost predicate RearmedOrSame(a: StepStatus, b: StepStatus) {
    b == a || exists cap :: b == FlowLogic.Rearm(a, cap)
  }

  /** The same flows after some of their steps were re-armed. */
  ghost predicate MayRearm(before: seq<FlowUsage>, after: seq<FlowUsage>) {
    && |after| == |before|
    && forall f :: 0 <= f < |before| ==> FlowMayRearm(before[f], after[f])
  }

  ghost predicate FlowMayRearm(a: FlowUsage, b: FlowUsage) {
    && b.spec == a.spec && |b.steps| == |a.steps|
    && forall k :: 0 <= k < |a.steps| ==> RearmedOrSame(a.steps[k], b.steps[k])
  }

  ghost predicate CountsUp(u: TokenUsage) {
    u.inputTokens >= 0 && u.outputTokens >= 0 && u.totalTokens >= 0
  }

  ghost predicate CountsTokens(flow: FlowUsage) {
    forall k :: 0 <= k < |flow.steps| && flow.steps[k].tokenUsage.Some? ==> CountsUp(flow.steps[k].tokenUsage.value)
  }

  /** Record k was charged in the window, with tokens, and has been re-armed. */
  ghost predicate LosesCharge(a: FlowUsage, b: FlowUsage, agent: string, windowStart: Time, k: nat)
    requires k < |a.steps| == |b.steps|
  {
    var st := a.steps[k];
    && Charged(StepAgents(a.spec), st, agent) && st.completionTime.value >= windowStart
    && st.tokenUsage.value != NOTHING && b.steps[k] != st
  }

  ghost predicate AtMost(u: TokenUsage, v: TokenUsage) {
    u.inputTokens <= v.inputTokens && u.outputTokens <= v.outputTokens && u.totalTokens <= v.totalTokens
  }

  /** What a record adds to the sum. */
  function Share(agents: map<string, string>, st: StepStatus, agent: string, start: Time): (u: TokenUsage) {
    if Charged(agents, st, agent) && st.completionTime.value >= start then st.tokenUsage.value else NOTHING
  }

  lemma UsageOfNext(agents: map<string, string>, steps: seq<StepStatus>, agent: string, k: nat, start: Time)
    requires k < |steps|
    ensures Usage(ChargesOf(agents, steps, agent, k + 1), start) ==
            Plus(Usage(ChargesOf(agents, steps, agent, k), start), Share(agents, steps[k], agent, start))
  {
    hide Usage, Charged;
    var cs := ChargesOf(agents, steps, agent, k);
    if Charged(agents, steps[k], agent) {
      ChargedHasCharge(agents, steps[k], agent);
      var c := Charge(steps[k].completionTime.value, steps[k].tokenUsage.value);
      UsageOfConcat(cs, [c], start);
      UsageOfOne(c, start);
    } else {
      assert ChargesOf(agents, steps, agent, k + 1) == cs;
    }
  }

  lemma ChargedHasCharge(agents: map<string, string>, st: StepStatus, agent: string)
    requires Charged(agents, st, agent)
    ensures st.completionTime.Some? && st.tokenUsage.Some?
  {
  }

  lemma UsageOfOne(c: Charge, start: Time)
    ensures Usage([c], start) == if c.at >= start then c.usage else NOTHING
  {
    assert [c][..0] == [];
  }

  /** A re-armed record adds nothing. */
  lemma RearmedShare(a: FlowUsage, b: FlowUsage, agent: string, start: Time, k: nat)
    requires FlowMayRearm(a, b) && CountsTokens(a) && k < |a.steps|
    ensures var agents := StepAgents(a.spec);
            && AtMost(Share(agents, b.steps[k], agent, start), Share(agents, a.steps[k], agent, start))
            && (Share(agents, b.steps[k], agent, start) == Share(agents, a.steps[k], agent, start) <==>
                  !LosesCharge(a, b, agent, start, k))
  {
    hide StepAgents, RunsOn;
    assert RearmedOrSame(a.steps[k], b.steps[k]);
  }

  /** Re-arming never adds to the sum, and leaves it alone exactly when no charge is lost. */
  lemma {:induction false} RearmedFlowUsage(a: FlowUsage, b: FlowUsage, agent: string, start: Time, n: nat)
    requires FlowMayRearm(a, b) && CountsTokens(a) && n <= |a.steps|
    ensures var u := Usage(ChargesOf(StepAgents(a.spec), a.steps, agent, n), start);
            var v := Usage(ChargesOf(StepAgents(b.spec), b.steps, agent, n), start);
            && AtMost(v, u)
            && (v == u <==> forall k :: 0 <= k < n ==> !LosesCharge(a, b, agent, start, k))
  {
    hide ChargesOf, Usage, StepAgents, Share, LosesCharge, CountsTokens, RearmedOrSame;
    NoCharges(StepAgents(a.spec), a.steps, agent);
    NoCharges(StepAgents(b.spec), b.steps, agent);
    if n > 0 {
      RearmedFlowUsage(a, b, agent, start, n - 1);
      UsageOfNext(StepAgents(a.spec), a.steps, agent, n - 1, start);
      UsageOfNext(StepAgents(b.spec), b.steps, agent, n - 1, start);
      RearmedShare(a, b, agent, start, n - 1);
    }
  }

  lemma NoCharges(agents: map<string, string>, steps: seq<StepStatus>, agent: string)
    ensures ChargesOf(agents, steps, agent, 0) == []
  {
  }

  ghost predicate FlowKeepsCharges(a: FlowUsage, b: FlowUsage, agent: string, windowStart: Time) {
    |b.steps| == |a.steps| && forall k :: 0 <= k < |a.steps| ==> !LosesCharge(a, b, agent, windowStart, k)
  }

  lemma {:induction false} RearmedUsage(before: seq<FlowUsage>, after: seq<FlowUsage>, agent: string, start: Time,
                                        n: nat)
    requires MayRearm(before, after) && n <= |before| && forall f :: 0 <= f < |before| ==> CountsTokens(before[f])
    ensures var u := Usage(Charges(before, agent, n), start);
            var v := Usage(Charges(after, agent, n), start);
            && AtMost(v, u)
            && (v == u <==> forall f :: 0 <= f < n ==> FlowKeepsCharges(before[f], after[f], agent, start))
  {
    hide Usage, ChargesOf, StepAgents, FlowMayRearm, CountsTokens, LosesCharge;
    if n > 0 {
      var a, b := before[n - 1], after[n - 1];
      RearmedUsage(before, after, agent, start, n - 1);
      SameShape(a, b);
      RearmedFlowUsage(a, b, agent, start, |a.steps|);
      UsageOfConcat(Charges(before, agent, n - 1), ChargesOf(StepAgents(a.spec), a.steps, agent, |a.steps|), start);
      UsageOfConcat(Charges(after, agent, n - 1), ChargesOf(StepAgents(b.spec), b.steps, agent, |b.steps|), start);
    }
  }

  lemma SameShape(a: FlowUsage, b: FlowUsage)
    requires FlowMayRearm(a, b)
    ensures b.spec == a.spec && |b.steps| == |a.steps|
  {
  }

  /** Every charged record is among the charges. */
  lemma {:induction false} ChargeIsListed(agents: map<string, string>, steps: seq<StepStatus>, agent: string,
                                          k: nat, n: nat)
    requires k < n <= |steps| && Charged(agents, steps[k], agent)
    ensures exists c :: c in ChargesOf(agents, steps, agent, n) && c.at == steps[k].completionTime.value
  {
    hide RunsOn;
    if k < n - 1 {
      ChargeIsListed(agents, steps, agent, k, n - 1);
      var c :| c in ChargesOf(agents, steps, agent, n - 1) && c.at == steps[k].completionTime.value;
      assert c in ChargesOf(agents, steps, agent, n);
    } else {
      var c := Charge(steps[k].completionTime.value, steps[k].tokenUsage.value);
      assert c in ChargesOf(agents, steps, agent, n);
    }
  }

  lemma {:induction false} FlowChargeIsListed(flows: seq<FlowUsage>, agent: string, f: nat, k: nat, n: nat)
    requires f < n <= |flows| && k < |flows[f].steps|
    requires Charged(StepAgents(flows[f].spec), flows[f].steps[k], agent)
    ensures exists c :: c in Charges(flows, agent, n) && c.at == flows[f].steps[k].completionTime.value
  {
    hide StepAgents, ChargesOf, RunsOn;
    if f < n - 1 {
      FlowChargeIsListed(flows, agent, f, k, n - 1);
    } else {
      ChargeIsListed(StepAgents(flows[f].spec), flows[f].steps, agent, k, |flows[f].steps|);
    }
  }

  /** Until the oldest entry expires, re-arming steps leaves the sum what it is if and only if no record
      that was charged in the window, with tokens, is re-armed; and it never raises the sum. */
  lemma UsageHoldsExactly(before: seq<FlowUsage>, after: seq<FlowUsage>, agent: string, now: Time, later: Time)
    requires MayRearm(before, after) && forall f :: 0 <= f < |before| ==> CountsTokens(before[f])
    requires var e := Earliest(Charges(before, agent, |before|), now - DAY);
             now <= later && (e.Some? ==> later <= e.value + DAY)
    ensures var u := Usage(Charges(before, agent, |before|), now - DAY);
            var v := Usage(Charges(after, agent, |after|), later - DAY);
            && AtMost(v, u)
            && (v == u <==>
                  forall f :: 0 <= f < |before| ==> FlowKeepsCharges(before[f], after[f], agent, now - DAY))
  {
    hide Usage, Charges, ChargesOf, StepAgents, CountsTokens, RunsOn;
    var cs := Charges(before, agent, |before|);
    SameWindow(cs, now - DAY, later - DAY);
    RearmedUsage(before, after, agent, later - DAY, |before|);
    forall f | 0 <= f < |before|
      ensures FlowKeepsCharges(before[f], after[f], agent, now - DAY) <==>
              FlowKeepsCharges(before[f], after[f], agent, later - DAY)
    {
      assert FlowMayRearm(before[f], after[f]);
      SameLoss(before, after, agent, now - DAY, later - DAY, f);
    }
  }

  lemma SameLoss(before: seq<FlowUsage>, after: seq<FlowUsage>, agent: string, s: Time, t: Time, f: nat)
    requires f < |before| == |after| && |after[f].steps| == |before[f].steps| && s <= t
    requires forall c :: c in Charges(before, agent, |before|) && c.at >= s ==> c.at >= t
    ensures FlowKeepsCharges(before[f], after[f], agent, s) <==> FlowKeepsCharges(before[f], after[f], agent, t)
  {
    hide Charges, StepAgents, RunsOn;
    var a, b := before[f], after[f];
    forall k | 0 <= k < |a.steps|
      ensures LosesCharge(a, b, agent, s, k) <==> LosesCharge(a, b, agent, t, k)
    {
      if Charged(StepAgents(a.spec), a.steps[k], agent) {
        FlowChargeIsListed(before, agent, f, k, |before|);
      }
    }
  }

  /** So a loop can bring replicas back at once, long before expiry and although every token was spent:
      re-arming a step that alone reaches the limit ends the excess at the same time. */
  lemma RearmEndsExcess(step: Step, st: StepStatus, limit: int, now: Time, cap: int)
    requires st.name == step.name && st.tokenUsage.Some? && st.completionTime.Some?
    requires st.completionTime.value >= now - DAY && 0 < limit <= st.tokenUsage.value.totalTokens
    ensures Exceeded(limit, Charges([FlowUsage([step], [st])], step.arkAgent, 1), now)
    ensures !Exceeded(limit, Charges([FlowUsage([step], [FlowLogic.Rearm(st, cap)])], step.arkAgent, 1), now)
    ensures FlowLogic.Rearm(st, cap).tokenUsage == st.tokenUsage
  {
    var rearmed := FlowLogic.Rearm(st, cap);
    OneRecordUsage(step, st, now - DAY);
    OneRecordUsage(step, rearmed, now - DAY);
    assert RunsOn(map[step.name := step.arkAgent], st.name, step.arkAgent);
    assert !Charged(map[step.name := step.arkAgent], rearmed, step.arkAgent);
    hide Usage, Charges;
  }

  lemma OneRecordUsage(step: Step, st: StepStatus, start: Time)
    ensures Usage(Charges([FlowUsage([step], [st])], step.arkAgent, 1), start) ==
            Share(map[step.name := step.arkAgent], st, step.arkAgent, start)
  {
    hide Share, RunsOn, Charges, ChargesOf, Usage, StepAgents;
    var agents := map[step.name := step.arkAgent];
    OneStepAgent(step);
    OneFlowCharges(FlowUsage([step], [st]), step.arkAgent);
    UsageOfNext(agents, [st], step.arkAgent, 0, start);
    NoCharges(agents, [st], step.arkAgent);
    EmptyWindowIsFree([], start);
  }

  lemma OneStepAgent(step: Step)
    ensures StepAgents([step]) == map[step.name := step.arkAgent]
  {
    assert [step][..0] == [];
  }

  lemma OneFlowCharges(flow: FlowUsage, agent: string)
    ensures Charges([flow], agent, 1) == ChargesOf(StepAgents(flow.spec), flow.steps, agent, |flow.steps|)
  {
    hide ChargesOf, StepAgents;
    assert Charges([flow], agent, 0) == [];
  }
}

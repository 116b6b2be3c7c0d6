/** Dependency validation (`ValidateDAG`): a three-colour depth-first search. */
module Dag {
  import opened FlowTypes

  datatype Color = White | Gray | Black

  datatype DagError =
    | UnknownDependency(step: string, dep: string)
    | CycleDetected(step: string, dep: string)

  /** Dependencies by step name; the last step of a name wins. */
  function Adjacency(steps: seq<Step>): (adj: map<string, seq<string>>)
    ensures forall n :: n in adj <==> exists i :: 0 <= i < |steps| && steps[i].name == n
  {
    if steps == [] then map[]
    else
      var last := |steps| - 1;
      Adjacency(steps[..last])[steps[last].name := steps[last].dependsOn]
  }

  predicate KnownName(spec: FlowSpec, name: string) {
    exists i :: 0 <= i < |spec.steps| && spec.steps[i].name == name
  }

  predicate DependenciesKnown(spec: FlowSpec) {
    forall i, d :: 0 <= i < |spec.steps| && d in spec.steps[i].dependsOn ==> KnownName(spec, d)
  }

  /** Every dependency of a node is a node. */
  predicate Closed(adj: map<string, seq<string>>) {
    forall n, d :: n in adj && d in adj[n] ==> d in adj
  }

  predicate Edge(adj: map<string, seq<string>>, a: string, b: string) {
    a in adj && b in adj[a]
  }

  predicate Walk(adj: map<string, seq<string>>, p: seq<string>) {
    forall k :: 0 <= k < |p| - 1 ==> Edge(adj, p[k], p[k + 1])
  }

  /** A walk along dependencies that returns to where it started. */
  predicate Cycle(adj: map<string, seq<string>>, p: seq<string>) {
    |p| >= 2 && p[0] == p[|p| - 1] && Walk(adj, p)
  }

  ghost predicate Acyclic(adj: map<string, seq<string>>) {
    forall p: seq<string> :: !Cycle(adj, p)
  }

  /** A rank that strictly decreases from a step to each of its dependencies. */
  ghost predicate Ranks(adj: map<string, seq<string>>, rank: map<string, nat>) {
    && (forall n :: n in adj ==> n in rank)
    && (forall n, d :: Edge(adj, n, d) ==> d in rank && rank[d] < rank[n])
  }

  ghost predicate Rankable(adj: map<string, seq<string>>) {
    exists rank :: Ranks(adj, rank)
  }

  lemma {:induction false} RankFallsAlongWalk(adj: map<string, seq<string>>, rank: map<string, nat>, p: seq<string>)
    requires Ranks(adj, rank) && Walk(adj, p) && |p| >= 2
    ensures p[0] in rank && p[|p| - 1] in rank && rank[p[|p| - 1]] < rank[p[0]]
    decreases |p|
  {
    assert Edge(adj, p[0], p[1]);
    if |p| > 2 {
      var rest := p[1..];
      forall k | 0 <= k < |rest| - 1 ensures Edge(adj, rest[k], rest[k + 1]) {
        assert Edge(adj, p[k + 1], p[k + 1 + 1]);
      }
      RankFallsAlongWalk(adj, rank, rest);
    }
  }

  lemma RankedIsAcyclic(adj: map<string, seq<string>>, rank: map<string, nat>)
    requires Ranks(adj, rank)
    ensures Acyclic(adj)
  {
    forall p: seq<string> ensures !Cycle(adj, p) {
      if Cycle(adj, p) {
        RankFallsAlongWalk(adj, rank, p);
      }
    }
  }

  /** The adjacency of a name is the `dependsOn` of the last step with that name. */
  lemma {:induction false} AdjacencyOfStep(steps: seq<Step>, i: nat)
    requires i < |steps|
    requires forall b :: i < b < |steps| ==> steps[b].name != steps[i].name
    ensures steps[i].name in Adjacency(steps) && Adjacency(steps)[steps[i].name] == steps[i].dependsOn
  {
    var last := |steps| - 1;
    if i < last {
      AdjacencyOfStep(steps[..last], i);
      assert steps[i].name != steps[last].name;
    }
  }

  ghost function PositionIn(order: seq<string>, name: string): (k: nat)
    requires name in order
    ensures k < |order| && order[k] == name
  {
    var k :| 0 <= k < |order| && order[k] == name;
    k
  }

  /** Steps are left once, and only after all their dependencies. */
  ghost predicate LeftInOrder(adj: map<string, seq<string>>, finished: seq<string>) {
    && (forall a, b :: 0 <= a < b < |finished| ==> finished[a] != finished[b])
    && (forall k, d :: 0 <= k < |finished| && Edge(adj, finished[k], d) ==> d in finished[..k])
  }

  lemma LeaveKeepsOrder(adj: map<string, seq<string>>, finished: seq<string>, name: string)
    requires LeftInOrder(adj, finished)
    requires name in adj && name !in finished
    requires forall d :: d in adj[name] ==> d in finished
    ensures LeftInOrder(adj, finished + [name])
  {
    var now := finished + [name];
    forall j, d | 0 <= j < |now| && Edge(adj, now[j], d)
      ensures d in now[..j]
    {
      if j < |finished| {
        assert now[..j] == finished[..j];
      } else {
        assert now[..j] == finished;
      }
    }
  }

  lemma EnterKeepsWalk(adj: map<string, seq<string>>, stack: seq<string>, name: string)
    requires Walk(adj, stack) && (stack != [] ==> Edge(adj, stack[|stack| - 1], name))
    ensures Walk(adj, stack + [name])
  {
    var now := stack + [name];
    forall k | 0 <= k < |now| - 1 ensures Edge(adj, now[k], now[k + 1]) {
      if k < |stack| - 1 {
        assert Edge(adj, stack[k], stack[k + 1]);
      }
    }
  }

  /** An edge from the last gray step to a gray step closes a cycle. */
  lemma GrayEdgeClosesCycle(adj: map<string, seq<string>>, stack: seq<string>, dep: string)
    returns (cycle: seq<string>)
    requires Walk(adj, stack) && dep in stack && Edge(adj, stack[|stack| - 1], dep)
    ensures Cycle(adj, cycle) && cycle[|cycle| - 2..] == [stack[|stack| - 1], dep]
  {
    var at := PositionIn(stack, dep);
    cycle := stack[at..] + [dep];
    forall j | 0 <= j < |cycle| - 1 ensures Edge(adj, cycle[j], cycle[j + 1]) {
      if j < |cycle| - 2 {
        assert Edge(adj, stack[at + j], stack[at + j + 1]);
      }
    }
  }

  function Paint(color: map<string, Color>, name: string): (c: Color) {
    if name in color then color[name] else White
  }

  ghost function WhiteNames(adj: map<string, seq<string>>, color: map<string, Color>): (w: set<string>) {
    set n | n in adj && Paint(color, n) == White
  }

  /** The gray steps form a walk, and the black ones were left in order. */
  ghost predicate Coherent(adj: map<string, seq<string>>, color: map<string, Color>, stack: seq<string>,
                           finished: seq<string>) {
    && Closed(adj)
    && (forall n :: Paint(color, n) != White ==> n in adj)
    && (forall n :: n in stack <==> Paint(color, n) == Gray)
    && (forall n :: n in finished <==> Paint(color, n) == Black)
    && Walk(adj, stack)
    && LeftInOrder(adj, finished)
  }

  lemma EnterKeepsCoherent(adj: map<string, seq<string>>, color: map<string, Color>, stack: seq<string>,
                           finished: seq<string>, name: string)
    requires Coherent(adj, color, stack, finished) && name in adj && Paint(color, name) == White
    requires stack != [] ==> Edge(adj, stack[|stack| - 1], name)
    ensures Coherent(adj, color[name := Gray], stack + [name], finished)
    ensures WhiteNames(adj, color[name := Gray]) < WhiteNames(adj, color)
  {
    EnterKeepsWalk(adj, stack, name);
    assert name in WhiteNames(adj, color) && name !in WhiteNames(adj, color[name := Gray]);
  }

  lemma LeaveKeepsCoherent(adj: map<string, seq<string>>, color: map<string, Color>, stack: seq<string>,
                           finished: seq<string>, name: string)
    requires Coherent(adj, color, stack + [name], finished) && name in adj && name !in stack
    requires forall d :: d in adj[name] ==> Paint(color, d) == Black
    ensures Coherent(adj, color[name := Black], stack, finished + [name])
    ensures WhiteNames(adj, color[name := Black]) == WhiteNames(adj, color)
  {
    assert name in stack + [name];
    LeaveKeepsOrder(adj, finished, name);
    var all := stack + [name];
    forall k | 0 <= k < |stack| - 1 ensures Edge(adj, stack[k], stack[k + 1]) {
      assert Edge(adj, all[k], all[k + 1]);
    }
    forall n ensures n in stack <==> Paint(color[name := Black], n) == Gray {
      assert n in all <==> n in stack || n == name;
    }
  }

  lemma StackIsGray(adj: map<string, seq<string>>, color: map<string, Color>, stack: seq<string>, finished: seq<string>,
                    name: string)
    requires Coherent(adj, color, stack, finished)
    ensures Walk(adj, stack) && (name in stack <==> Paint(color, name) == Gray)
    ensures Closed(adj)
  {
  }

  /** The search state that the recursive closure of `ValidateDAG` updates. */
  class Search {
    const adj: map<string, seq<string>>
    var color: map<string, Color>
    // the gray steps in the order they were entered, and the black ones in the order they were left
    ghost var stack: seq<string>
    ghost var finished: seq<string>

    constructor (adj: map<string, seq<string>>)
      ensures this.adj == adj && color == map[] && stack == [] && finished == []
    {
      this.adj := adj;
      color := map[];
      stack, finished := [], [];
    }

    /** A name without a color is white. */
    function ColorOf(name: string): (c: Color)
      reads this
    {
      Paint(color, name)
    }

    ghost predicate Valid()
      reads this
    {
      Coherent(adj, color, stack, finished)
    }

    ghost function Whites(): (w: set<string>)
      reads this
    {
      WhiteNames(adj, color)
    }

    /** Visits a white step. On success the step and everything it depends on is black; a reported
        cycle is a real one, closed by the reported edge. */
    method Visit(name: string) returns (r: Option<DagError>, ghost cycle: seq<string>)
      requires Valid() && name in adj && ColorOf(name) == White
      requires stack != [] ==> Edge(adj, stack[|stack| - 1], name)
      modifies this
      decreases Whites()
      ensures r.None? ==> Valid() && ColorOf(name) == Black && stack == old(stack)
      ensures r.None? ==> Whites() < old(Whites())
      ensures r.None? ==> forall n :: old(ColorOf(n)) == Black ==> ColorOf(n) == Black
      ensures r.Some? ==> r.value.CycleDetected? && Cycle(adj, cycle)
      ensures r.Some? ==> cycle[|cycle| - 2..] == [r.value.step, r.value.dep]
    {
      hide Coherent, WhiteNames;
      cycle := [];
      ghost var whites, entered := Whites(), stack;
      EnterKeepsCoherent(adj, color, stack, finished, name);
      assert name !in stack by { StackIsGray(adj, color, stack, finished, name); }
      color := color[name := Gray];
      stack := stack + [name];
      var deps := adj[name];
      var k := 0;
      while k < |deps|
        invariant 0 <= k <= |deps|
        invariant Valid() && stack == entered + [name]
        invariant forall j :: 0 <= j < k ==> ColorOf(deps[j]) == Black
        invariant Whites() < whites
        invariant forall n :: old(ColorOf(n)) == Black ==> ColorOf(n) == Black
      {
        var dep := deps[k];
        StackIsGray(adj, color, stack, finished, dep);
        match ColorOf(dep) {
          case Gray =>
            cycle := GrayEdgeClosesCycle(adj, stack, dep);
            return Some(CycleDetected(name, dep)), cycle;
          case White =>
            var err;
            err, cycle := Visit(dep);
            if err.Some? {
              return err, cycle;
            }
          case Black =>
        }
        k := k + 1;
      }
      LeaveKeepsCoherent(adj, color, entered, finished, name);
      color := color[name := Black];
      stack := entered;
      finished := finished + [name];
      return None, [];
    }
  }

  /** The rank read off a completed search: the order in which steps were left. */
  lemma FinishedOrderRanks(adj: map<string, seq<string>>, finished: seq<string>)
    returns (rank: map<string, nat>)
    requires Closed(adj)
    requires forall n :: n in adj ==> n in finished
    requires forall n :: n in finished ==> n in adj
    requires LeftInOrder(adj, finished)
    ensures Ranks(adj, rank)
  {
    rank := map n | n in finished :: PositionIn(finished, n);
    forall n, d | Edge(adj, n, d)
      ensures d in rank && rank[d] < rank[n]
    {
      var k := PositionIn(finished, n);
      assert d in finished[..k];
      var j :| 0 <= j < k && finished[..k][j] == d;
      assert finished[j] == d;
    }
  }

  method FindUnknownDependency(spec: FlowSpec) returns (r: Option<DagError>)
    ensures r.None? <==> DependenciesKnown(spec)
    ensures r.Some? ==> r.value.UnknownDependency?
    ensures r.Some? ==>
              exists i :: 0 <= i < |spec.steps| && spec.steps[i].name == r.value.step
                          && r.value.dep in spec.steps[i].dependsOn && !KnownName(spec, r.value.dep)
  {
    var stepNames: set<string> := {};
    for i := 0 to |spec.steps|
      invariant forall n :: n in stepNames <==> exists j :: 0 <= j < i && spec.steps[j].name == n
    {
      stepNames := stepNames + {spec.steps[i].name};
    }
    assert forall n :: n in stepNames <==> KnownName(spec, n);
    for i := 0 to |spec.steps|
      invariant forall j, d :: 0 <= j < i && d in spec.steps[j].dependsOn ==> KnownName(spec, d)
    {
      var step := spec.steps[i];
      for k := 0 to |step.dependsOn|
        invariant forall j :: 0 <= j < k ==> KnownName(spec, step.dependsOn[j])
      {
        if step.dependsOn[k] !in stepNames {
          assert step.dependsOn[k] in spec.steps[i].dependsOn;
          return Some(UnknownDependency(step.name, step.dependsOn[k]));
        }
      }
    }
    return None;
  }

  method BuildAdjacency(spec: FlowSpec) returns (adj: map<string, seq<string>>)
    ensures adj == Adjacency(spec.steps)
  {
    adj := map[];
    for i := 0 to |spec.steps|
      invariant adj == Adjacency(spec.steps[..i])
    {
      assert spec.steps[..i + 1][..i] == spec.steps[..i];
      adj := adj[spec.steps[i].name := spec.steps[i].dependsOn];
    }
    assert spec.steps[..|spec.steps|] == spec.steps;
  }

  /** Visits every step that is still white, in spec order. */
  method SearchFrom(steps: seq<Step>, adj: map<string, seq<string>>)
    returns (r: Option<DagError>, ghost rank: map<string, nat>, ghost cycle: seq<string>)
    requires Closed(adj)
    requires forall n :: n in adj <==> exists i :: 0 <= i < |steps| && steps[i].name == n
    ensures r.None? ==> Ranks(adj, rank)
    ensures r.Some? ==> r.value.CycleDetected? && Cycle(adj, cycle)
    ensures r.Some? ==> cycle[|cycle| - 2..] == [r.value.step, r.value.dep]
  {
    rank, cycle := map[], [];
    var search := new Search(adj);
    for i := 0 to |steps|
      invariant search.Valid() && search.stack == [] && search.adj == adj
      invariant forall j :: 0 <= j < i ==> search.ColorOf(steps[j].name) == Black
    {
      if search.ColorOf(steps[i].name) == White {
        r, cycle := search.Visit(steps[i].name);
        if r.Some? {
          return r, rank, cycle;
        }
      }
    }
    rank := FinishedOrderRanks(adj, search.finished);
    return None, rank, cycle;
  }

  /** Accepts a flow exactly when every `dependsOn` entry names a step and the dependencies have no
      cycle, and then yields a rank; a reported error points at a real defect. */
  method ValidateDAG(spec: FlowSpec)
    returns (r: Option<DagError>, ghost rank: map<string, nat>, ghost cycle: seq<string>)
    ensures r.None? <==> DependenciesKnown(spec) && Acyclic(Adjacency(spec.steps))
    ensures r.None? ==> Ranks(Adjacency(spec.steps), rank)
    ensures r.None? <==> DependenciesKnown(spec) && Rankable(Adjacency(spec.steps))
    ensures r.Some? && r.value.UnknownDependency? ==>
              exists i :: 0 <= i < |spec.steps| && spec.steps[i].name == r.value.step
                          && r.value.dep in spec.steps[i].dependsOn && !KnownName(spec, r.value.dep)
    ensures r.Some? && r.value.CycleDetected? ==>
              && DependenciesKnown(spec) && Cycle(Adjacency(spec.steps), cycle)
              && cycle[|cycle| - 2..] == [r.value.step, r.value.dep]
  {
    rank, cycle := map[], [];
    r := FindUnknownDependency(spec);
    if r.Some? {
      return r, rank, cycle;
    }
    var adj := BuildAdjacency(spec);
    AdjacencyIsClosed(spec);
    AdjacencyNames(spec);
    r, rank, cycle := SearchFrom(spec.steps, adj);
    if r.Some? {
      NoRankOnCycle(adj, cycle);
    } else {
      RankedIsAcyclic(adj, rank);
    }
  }

  lemma NoRankOnCycle(adj: map<string, seq<string>>, cycle: seq<string>)
    requires Cycle(adj, cycle)
    ensures !Acyclic(adj) && !Rankable(adj)
  {
    if rank :| Ranks(adj, rank) {
      RankFallsAlongWalk(adj, rank, cycle);
    }
  }

  lemma AdjacencyComes(steps: seq<Step>, n: string)
    requires n in Adjacency(steps)
    ensures exists i :: 0 <= i < |steps| && steps[i].name == n && Adjacency(steps)[n] == steps[i].dependsOn
  {
    var last := |steps| - 1;
    if steps[last].name != n {
      AdjacencyComes(steps[..last], n);
      var i :| 0 <= i < last && steps[..last][i].name == n
               && Adjacency(steps[..last])[n] == steps[..last][i].dependsOn;
      assert steps[i].name == n && Adjacency(steps)[n] == steps[i].dependsOn;
    }
  }

  lemma AdjacencyNames(spec: FlowSpec)
    ensures forall n :: n in Adjacency(spec.steps) <==> KnownName(spec, n)
  {
  }

  lemma AdjacencyIsClosed(spec: FlowSpec)
    requires DependenciesKnown(spec)
    ensures Closed(Adjacency(spec.steps))
  {
    var adj := Adjacency(spec.steps);
    forall n, d | n in adj && d in adj[n]
      ensures d in adj
    {
      AdjacencyComes(spec.steps, n);
      assert KnownName(spec, d);
    }
  }

  /** What a flow that passed validation offers the engine. */
  ghost predicate ValidDag(spec: FlowSpec) {
    DependenciesKnown(spec) && Rankable(Adjacency(spec.steps))
  }

  /** A validated flow with unique names has a rank over its own `dependsOn` lists. */
  lemma ValidDagRank(spec: FlowSpec) returns (rank: map<string, nat>)
    requires ValidDag(spec) && UniqueNames(spec)
    ensures StepRanks(spec, rank)
  {
    var adj := Adjacency(spec.steps);
    rank :| Ranks(adj, rank);
    forall i, d | 0 <= i < |spec.steps| && d in spec.steps[i].dependsOn
      ensures spec.steps[i].name in rank && d in rank && rank[d] < rank[spec.steps[i].name]
    {
      AdjacencyOfStep(spec.steps, i);
      assert Edge(adj, spec.steps[i].name, d);
    }
    forall i | 0 <= i < |spec.steps| ensures spec.steps[i].name in rank {
      AdjacencyOfStep(spec.steps, i);
    }
  }

  ghost predicate StepRanks(spec: FlowSpec, rank: map<string, nat>) {
    && (forall i :: 0 <= i < |spec.steps| ==> spec.steps[i].name in rank)
    && (forall i, d :: 0 <= i < |spec.steps| && d in spec.steps[i].dependsOn ==>
          KnownName(spec, d) && d in rank && rank[d] < rank[spec.steps[i].name])
  }
}

/** All interleavings of the queue operations of any number of agents: no task is lost or doubled,
    its content survives retries, and it is delivered a bounded number of times. */
module QueueLineage {
  import opened QueueWire
  import Decimal

  /** What an agent has decided about a task it works on. */
  datatype Outcome =
    | Success(result: string, inputTokens: int, outputTokens: int)
    | Failure(reason: string, maxRetries: int)

  /** The streams, the tasks between the two commands of an Ack or Nack, and for each message of the
      task stream the message its retries started from. */
  datatype World = World(redis: Redis, settling: map<nat, Outcome>, root: seq<nat>)

  datatype Event =
    | Submit(values: Values)
    | Poll
    | Acknowledge(id: nat, outcome: Outcome)
    | Settle(id: nat)

  /** A consumer group created on a stream that already holds `prior` reads only what comes later. */
  function Created(prior: seq<Values>): (w: World) {
    World(Redis(prior, |prior|, {}, [], []), map[], seq(|prior|, k => k))
  }

  function Settled(r: Redis, p: nat, o: Outcome): (q: Redis)
    requires p < |r.stream|
  {
    match o
    case Success(result, inputTokens, outputTokens) => AddResult(r, p, result, inputTokens, outputTokens)
    case Failure(reason, maxRetries) => AddFailure(r, TaskAt(r, p), reason, maxRetries)
  }

  function Next(w: World, e: Event): (r: World) {
    match e
    case Submit(values) => w.(redis := Add(w.redis, values), root := w.root + [|w.redis.stream|])
    case Poll => w.(redis := Delivered(w.redis))
    case Acknowledge(id, outcome) => w.(redis := XAck(w.redis, id), settling := w.settling[id := outcome])
    case Settle(id) =>
      if id in w.settling && id < |w.redis.stream| && id < |w.root| then
        var redis := Settled(w.redis, id, w.settling[id]);
        World(redis, w.settling - {id}, if |redis.stream| > |w.redis.stream| then w.root + [w.root[id]] else w.root)
      else w
  }

  /** Each delivered task is acknowledged once, by the agent that polled it, and then settled once. */
  predicate Legal(w: World, e: Event, limit: int) {
    match e
    case Submit(_) => true
    case Poll => true
    case Acknowledge(id, outcome) => id in w.redis.pending && (outcome.Failure? ==> outcome.maxRetries <= limit)
    case Settle(id) => id in w.settling
  }

  function Run(prior: seq<Values>, events: seq<Event>): (w: World) {
    if events == [] then Created(prior) else Next(Run(prior, events[..|events| - 1]), events[|events| - 1])
  }

  predicate LegalRun(prior: seq<Values>, events: seq<Event>, limit: int) {
    events == [] ||
    (LegalRun(prior, events[..|events| - 1], limit)
     && Legal(Run(prior, events[..|events| - 1]), events[|events| - 1], limit))
  }

  /** The two commands of a method call, with nothing in between, are its two events. */
  lemma MethodsAreEvents(w: World, id: nat, o: Outcome)
    requires id in w.redis.pending && id < |w.redis.stream| && id < |w.root|
    ensures Next(Next(w, Acknowledge(id, o)), Settle(id)).redis ==
            match o
            case Success(result, i, t) => AddResult(XAck(w.redis, id), id, result, i, t)
            case Failure(reason, max) => AddFailure(XAck(w.redis, id), TaskAt(w.redis, id), reason, max)
  {
  }

  // --- Where a message is ---------------------------------------------------------------------

  predicate HasResult(w: World, p: nat) {
    exists k :: 0 <= k < |w.redis.results| && w.redis.results[k].taskId == p
  }

  predicate IsDead(w: World, p: nat) {
    exists k :: 0 <= k < |w.redis.dead| && w.redis.dead[k].taskId == p
  }

  /** Still the current representative of its task. */
  predicate Live(w: World, p: nat) {
    p >= w.redis.delivered || p in w.redis.pending || p in w.settling || HasResult(w, p) || IsDead(w, p)
  }

  /** No later message continues the task of message p. */
  predicate Latest(w: World, p: nat) {
    p < |w.root| && forall q :: p < q < |w.root| ==> w.root[q] != w.root[p]
  }

  /** How many of the first n messages belong to the task that started at r. */
  function Members(root: seq<nat>, r: nat, n: nat): (c: nat)
    requires n <= |root|
  {
    if n == 0 then 0 else Members(root, r, n - 1) + (if root[n - 1] == r then 1 else 0)
  }

  function Max(a: int, b: int): (m: int) {
    if a > b then a else b
  }

  // --- The invariant --------------------------------------------------------------------------

  ghost predicate RootsOk(w: World, start: nat) {
    && start <= w.redis.delivered <= |w.redis.stream| == |w.root|
    && (forall p :: 0 <= p < |w.root| ==> w.root[p] <= p && w.root[w.root[p]] == w.root[p])
    && (forall p :: start <= p < |w.root| ==> start <= w.root[p])
  }

  /** The places a delivered message can be are disjoint, and each is taken once. */
  ghost predicate PlacesOk(w: World, start: nat) {
    && (forall p :: p in w.redis.pending ==>
          start <= p < w.redis.delivered && p !in w.settling && !HasResult(w, p) && !IsDead(w, p))
    && (forall p :: p in w.settling ==> start <= p < w.redis.delivered && !HasResult(w, p) && !IsDead(w, p))
    && (forall k :: 0 <= k < |w.redis.results| ==>
          start <= w.redis.results[k].taskId < w.redis.delivered && !IsDead(w, w.redis.results[k].taskId))
    && (forall k :: 0 <= k < |w.redis.dead| ==> start <= w.redis.dead[k].taskId < w.redis.delivered)
    && (forall j, k :: 0 <= j < k < |w.redis.results| ==> w.redis.results[j].taskId != w.redis.results[k].taskId)
    && (forall j, k :: 0 <= j < k < |w.redis.dead| ==> w.redis.dead[j].taskId != w.redis.dead[k].taskId)
  }

  ghost predicate LineagesOk(w: World, start: nat)
    requires RootsOk(w, start)
  {
    forall p :: start <= p < |w.root| ==> (Live(w, p) <==> Latest(w, p))
  }

  /** A message carries the prompt and the fields of its root, and counts its predecessors. */
  ghost predicate Continues(w: World, p: nat, limit: int)
    requires p < |w.redis.stream| == |w.root| && w.root[p] <= p
  {
    var v, v0 := w.redis.stream[p], w.redis.stream[w.root[p]];
    && PromptOf(v) == PromptOf(v0)
    && MetaOf(v) - {"attempt"} == MetaOf(v0) - {"attempt"}
    && AttemptOf(MetaOf(v)) == AttemptOf(MetaOf(v0)) + Members(w.root, w.root[p], p)
    && (w.root[p] < p ==> AttemptOf(MetaOf(v)) <= limit)
  }

  ghost predicate LimitsOk(w: World, limit: int) {
    forall p :: p in w.settling && w.settling[p].Failure? ==> w.settling[p].maxRetries <= limit
  }

  ghost predicate Inv(w: World, start: nat, limit: int) {
    && RootsOk(w, start) && PlacesOk(w, start) && LineagesOk(w, start) && LimitsOk(w, limit)
    && (forall p :: start <= p < |w.root| ==> Continues(w, p, limit))
  }

  // --- Retry messages -------------------------------------------------------------------------

  /** A retry keeps the prompt and every field but the counter, which goes up by one. */
  lemma RetryKeepsContent(t: Task)
    requires "prompt" !in t.meta && AttemptOf(t.meta) < Decimal.MAX_INT
    ensures var v := RetryValues(t);
            && PromptOf(v) == t.prompt
            && MetaOf(v) - {"attempt"} == t.meta - {"attempt"}
            && AttemptOf(MetaOf(v)) == AttemptOf(t.meta) + 1
  {
    hide Decimal.Atoi, Decimal.Itoa;
    var v := RetryValues(t);
    Decimal.AtoiOfItoa(AttemptOf(t.meta) + 1);
    assert "attempt" !in (t.meta - {"attempt"}) && "prompt" !in (t.meta - {"attempt"});
    assert v["prompt"] == t.prompt;
    assert MetaOf(v)["attempt"] == Decimal.Itoa(AttemptOf(t.meta) + 1);
  }

  lemma {:induction false} MembersOfPrefix(root: seq<nat>, more: seq<nat>, r: nat, n: nat)
    requires n <= |root|
    ensures Members(root + more, r, n) == Members(root, r, n)
  {
    if n > 0 {
      MembersOfPrefix(root, more, r, n - 1);
    }
  }

  /** Only the messages between the root and the message itself count before it. */
  lemma {:induction false} NoMembersBefore(root: seq<nat>, r: nat, n: nat)
    requires n <= |root| && n <= r && forall p :: 0 <= p < |root| ==> root[p] <= p
    ensures Members(root, r, n) == 0
  {
    if n > 0 {
      NoMembersBefore(root, r, n - 1);
    }
  }

  lemma {:induction false} NoMembersAfter(root: seq<nat>, r: nat, p: nat, n: nat)
    requires p < n <= |root| && root[p] == r && forall q :: p < q < n ==> root[q] != r
    ensures Members(root, r, n) == Members(root, r, p) + 1
    decreases n
  {
    if p < n - 1 {
      NoMembersAfter(root, r, p, n - 1);
    }
  }

  // --- Every event keeps the invariant --------------------------------------------------------

  /** Appending a message leaves what is known of the earlier ones alone. */
  lemma EarlierContinue(w: World, q: World, limit: int, p: nat)
    requires |w.redis.stream| == |w.root| && p < |w.root| && w.root[p] <= p && Continues(w, p, limit)
    requires w.redis.stream <= q.redis.stream && w.root <= q.root && |q.redis.stream| == |q.root|
    ensures q.root[p] <= p && Continues(q, p, limit)
  {
    hide AttemptOf, MetaOf, PromptOf;
    MembersOfPrefix(w.root, q.root[|w.root|..], w.root[p], p);
    assert q.root == w.root + q.root[|w.root|..];
  }

  lemma FreshRootKeepsLatest(w: World, q: World, p: nat)
    requires q.root == w.root + [|w.root|] && p < |w.root| && w.root[p] <= p
    ensures Latest(q, p) <==> Latest(w, p)
  {
    var n := |w.root|;
    assert q.root[n] == n && forall j :: 0 <= j < n ==> q.root[j] == w.root[j];
    if Latest(q, p) {
      assert forall j :: p < j < n ==> w.root[j] == q.root[j];
    }
  }

  lemma SubmittedPlaces(w: World, start: nat, values: Values)
    requires RootsOk(w, start) && PlacesOk(w, start)
    ensures var q := Next(w, Submit(values));
            && PlacesOk(q, start) && Live(q, |w.root|)
            && forall p :: 0 <= p < |w.root| ==> (Live(q, p) <==> Live(w, p))
  {
    var q := Next(w, Submit(values));
    forall p: nat ensures HasResult(q, p) == HasResult(w, p) && IsDead(q, p) == IsDead(w, p) {
    }
    hide HasResult, IsDead;
  }

  lemma SubmitKeepsInv(w: World, start: nat, limit: int, values: Values)
    requires Inv(w, start, limit)
    ensures Inv(Next(w, Submit(values)), start, limit)
  {
    hide AttemptOf, MetaOf, PromptOf, Continues, PlacesOk, Live, Latest;
    var q := Next(w, Submit(values));
    var n := |w.root|;
    SubmittedPlaces(w, start, values);
    forall p | start <= p < |q.root| ensures Live(q, p) <==> Latest(q, p) {
      if p < n {
        FreshRootKeepsLatest(w, q, p);
      } else {
        NewestIsLatest(q, p);
      }
    }
    NoMembersBefore(q.root, n, n);
    FreshMessageContinues(q, n, limit);
    forall p | start <= p < n ensures Continues(q, p, limit) {
      EarlierContinue(w, q, limit, p);
    }
  }

  lemma NewestIsLatest(w: World, p: nat)
    requires p == |w.root| - 1
    ensures Latest(w, p)
  {
  }

  lemma FreshMessageContinues(w: World, n: nat, limit: int)
    requires n < |w.redis.stream| == |w.root| && w.root[n] == n && Members(w.root, n, n) == 0
    ensures Continues(w, n, limit)
  {
  }

  lemma PollKeepsInv(w: World, start: nat, limit: int)
    requires Inv(w, start, limit)
    ensures Inv(Next(w, Poll), start, limit)
  {
    hide AttemptOf, MetaOf, PromptOf, Members;
    var q := Next(w, Poll);
    if w.redis.delivered < |w.redis.stream| {
      forall p | start <= p < |q.root| ensures Live(q, p) <==> Latest(q, p) {
        assert Live(q, p) <==> Live(w, p);
        assert Latest(q, p) <==> Latest(w, p);
      }
      forall p: nat ensures HasResult(q, p) == HasResult(w, p) && IsDead(q, p) == IsDead(w, p) {
      }
      forall p | start <= p < |q.root| ensures Continues(q, p, limit) {
        assert Continues(w, p, limit);
      }
    }
  }

  lemma AcknowledgeKeepsInv(w: World, start: nat, limit: int, id: nat, outcome: Outcome)
    requires Inv(w, start, limit) && Legal(w, Acknowledge(id, outcome), limit)
    ensures Inv(Next(w, Acknowledge(id, outcome)), start, limit)
  {
    hide AttemptOf, MetaOf, PromptOf, Members;
    var q := Next(w, Acknowledge(id, outcome));
    forall p: nat ensures HasResult(q, p) == HasResult(w, p) && IsDead(q, p) == IsDead(w, p) {
    }
    forall p | start <= p < |q.root| ensures Live(q, p) <==> Latest(q, p) {
      assert Live(q, p) <==> Live(w, p);
      assert Latest(q, p) <==> Latest(w, p);
    }
    forall p | start <= p < |q.root| ensures Continues(q, p, limit) {
      assert Continues(w, p, limit);
    }
  }

  /** Settling into the results or the dead letters moves the task's representative there. */
  lemma ClosingKeepsInv(w: World, start: nat, limit: int, id: nat)
    requires Inv(w, start, limit) && Legal(w, Settle(id), limit)
    requires |Next(w, Settle(id)).redis.stream| == |w.redis.stream|
    ensures Inv(Next(w, Settle(id)), start, limit)
  {
    hide AttemptOf, MetaOf, PromptOf, Members, RetryValues;
    var q := Next(w, Settle(id));
    ClosedPlaces(w, start, limit, id);
    forall p | start <= p < |q.root| ensures Live(q, p) <==> Latest(q, p) {
      assert Latest(q, p) <==> Latest(w, p);
    }
    forall p | start <= p < |q.root| ensures Continues(q, p, limit) {
      assert Continues(w, p, limit);
    }
  }

  /** Exactly the settled message gains a result. */
  lemma NewResult(w: World, q: World, e: ResultEntry)
    requires q.redis.results == w.redis.results + [e] && q.redis.dead == w.redis.dead
    ensures forall p: nat :: HasResult(q, p) <==> HasResult(w, p) || p == e.taskId
    ensures forall p: nat :: IsDead(q, p) == IsDead(w, p)
  {
    assert q.redis.results[|w.redis.results|].taskId == e.taskId;
    forall p: nat ensures HasResult(w, p) ==> HasResult(q, p) {
      if HasResult(w, p) {
        var k :| 0 <= k < |w.redis.results| && w.redis.results[k].taskId == p;
        assert q.redis.results[k].taskId == p;
      }
    }
  }

  /** Exactly the settled message gains a dead letter. */
  lemma NewDeadLetter(w: World, q: World, e: DeadEntry)
    requires q.redis.dead == w.redis.dead + [e] && q.redis.results == w.redis.results
    ensures forall p: nat :: IsDead(q, p) <==> IsDead(w, p) || p == e.taskId
    ensures forall p: nat :: HasResult(q, p) == HasResult(w, p)
  {
    assert q.redis.dead[|w.redis.dead|].taskId == e.taskId;
    forall p: nat ensures IsDead(w, p) ==> IsDead(q, p) {
      if IsDead(w, p) {
        var k :| 0 <= k < |w.redis.dead| && w.redis.dead[k].taskId == p;
        assert q.redis.dead[k].taskId == p;
      }
    }
  }

  lemma EntriesAreNoted(w: World)
    ensures forall k :: 0 <= k < |w.redis.results| ==> HasResult(w, w.redis.results[k].taskId)
    ensures forall k :: 0 <= k < |w.redis.dead| ==> IsDead(w, w.redis.dead[k].taskId)
  {
  }

  lemma AnsweredPlaces(w: World, start: nat, id: nat, q: World, e: ResultEntry)
    requires PlacesOk(w, start) && id in w.settling && e.taskId == id
    requires q.redis == w.redis.(results := w.redis.results + [e]) && q.settling == w.settling - {id}
    ensures PlacesOk(q, start)
    ensures forall p: nat :: Live(q, p) <==> Live(w, p)
  {
    EntriesAreNoted(w);
    NewResult(w, q, e);
    hide HasResult, IsDead;
  }

  lemma DeadPlaces(w: World, start: nat, id: nat, q: World, e: DeadEntry)
    requires PlacesOk(w, start) && id in w.settling && e.taskId == id
    requires q.redis == w.redis.(dead := w.redis.dead + [e]) && q.settling == w.settling - {id}
    ensures PlacesOk(q, start)
    ensures forall p: nat :: Live(q, p) <==> Live(w, p)
  {
    EntriesAreNoted(w);
    NewDeadLetter(w, q, e);
    hide HasResult, IsDead;
  }

  lemma SettlingIsDelivered(w: World, start: nat, id: nat)
    requires RootsOk(w, start) && PlacesOk(w, start) && id in w.settling
    ensures id < |w.redis.stream| == |w.root|
  {
  }

  lemma ClosedPlaces(w: World, start: nat, limit: int, id: nat)
    requires Inv(w, start, limit) && id in w.settling
    requires |Next(w, Settle(id)).redis.stream| == |w.redis.stream|
    ensures var q := Next(w, Settle(id));
            && PlacesOk(q, start) && q.redis.stream == w.redis.stream && q.root == w.root
            && q.redis.delivered == w.redis.delivered
            && forall p :: 0 <= p < |w.root| ==> (Live(q, p) <==> Live(w, p))
  {
    hide PlacesOk, LineagesOk, LimitsOk, Live, AttemptOf, Continues, RetryValues;
    var q := Next(w, Settle(id));
    SettlingIsDelivered(w, start, id);
    if w.settling[id].Success? {
      AnsweredPlaces(w, start, id, q, q.redis.results[|w.redis.results|]);
    } else {
      DeadPlaces(w, start, id, q, q.redis.dead[|w.redis.dead|]);
    }
  }

  /** Requeueing makes the new message the representative of the task. */
  lemma RequeueKeepsInv(w: World, start: nat, limit: int, id: nat)
    requires limit <= Decimal.MAX_INT && Inv(w, start, limit) && Legal(w, Settle(id), limit)
    requires |Next(w, Settle(id)).redis.stream| > |w.redis.stream|
    ensures Inv(Next(w, Settle(id)), start, limit)
  {
    hide AttemptOf, MetaOf, PromptOf, Members, RetryValues, Continues;
    var q := Next(w, Settle(id));
    var n := |w.root|;
    assert q.root == w.root + [w.root[id]];
    assert Live(w, id) && Latest(w, id);
    RequeuedPlaces(w, start, limit, id);
    assert forall j :: 0 <= j < n ==> q.root[j] == w.root[j];
    forall p | start <= p < |q.root| ensures Live(q, p) <==> Latest(q, p) {
      if p < n {
        assert q.root[n] == w.root[id] && q.root[p] == w.root[p];
        if Latest(w, p) && p != id {
          assert w.root[p] != w.root[id];
          assert Latest(q, p);
        }
        if Latest(q, p) {
          assert forall j :: p < j < n ==> w.root[j] == q.root[j];
          assert Latest(w, p);
        }
      }
    }
    RetryContinues(w, start, limit, id);
    forall p | start <= p < n ensures Continues(q, p, limit) {
      EarlierContinue(w, q, limit, p);
    }
  }

  lemma RequeuedPlaces(w: World, start: nat, limit: int, id: nat)
    requires Inv(w, start, limit) && id in w.settling
    requires |Next(w, Settle(id)).redis.stream| > |w.redis.stream|
    ensures var q := Next(w, Settle(id));
            && PlacesOk(q, start) && q.redis.delivered == w.redis.delivered
            && |q.redis.stream| == |w.redis.stream| + 1 && w.redis.stream <= q.redis.stream
            && forall p :: 0 <= p < |w.root| ==> (Live(q, p) <==> Live(w, p) && p != id)
  {
    hide AttemptOf, MetaOf, PromptOf, Continues, RetryValues, Latest, Members;
    var q := Next(w, Settle(id));
    assert q.redis.results == w.redis.results && q.redis.dead == w.redis.dead;
    forall p: nat ensures HasResult(q, p) == HasResult(w, p) && IsDead(q, p) == IsDead(w, p) {
    }
  }

  lemma RetryContinues(w: World, start: nat, limit: int, id: nat)
    requires limit <= Decimal.MAX_INT && Inv(w, start, limit) && id in w.settling && Latest(w, id)
    requires |Next(w, Settle(id)).redis.stream| > |w.redis.stream|
    ensures var q := Next(w, Settle(id)); var n := |w.root|;
            n < |q.redis.stream| == |q.root| && q.root[n] <= n && Continues(q, n, limit)
  {
    hide AttemptOf, MetaOf, PromptOf, RetryValues, Latest;
    var q := Next(w, Settle(id));
    var n := |w.root|;
    var t := TaskAt(w.redis, id);
    assert Continues(w, id, limit);
    NoPromptInMeta(w.redis.stream[id]);
    RetryKeepsContent(t);
    assert q.redis.stream[n] == RetryValues(t);
    assert q.root == w.root + [w.root[id]];
    LatestEndsMembers(w, id);
    MembersOfPrefix(w.root, [w.root[id]], w.root[id], n);
  }

  lemma NoPromptInMeta(v: Values)
    ensures "prompt" !in MetaOf(v)
  {
  }

  lemma LatestEndsMembers(w: World, id: nat)
    requires Latest(w, id)
    ensures Members(w.root, w.root[id], |w.root|) == Members(w.root, w.root[id], id) + 1
  {
    NoMembersAfter(w.root, w.root[id], id, |w.root|);
  }

  lemma NextKeepsInv(w: World, start: nat, limit: int, e: Event)
    requires limit <= Decimal.MAX_INT && Inv(w, start, limit) && Legal(w, e, limit)
    ensures Inv(Next(w, e), start, limit)
  {
    hide Inv, Next;
    match e
    case Submit(values) => SubmitKeepsInv(w, start, limit, values);
    case Poll => PollKeepsInv(w, start, limit);
    case Acknowledge(id, outcome) => AcknowledgeKeepsInv(w, start, limit, id, outcome);
    case Settle(id) =>
      StreamOnlyGrows(w, e);
      if |Next(w, e).redis.stream| > |w.redis.stream| {
        RequeueKeepsInv(w, start, limit, id);
      } else {
        ClosingKeepsInv(w, start, limit, id);
      }
  }

  lemma StreamOnlyGrows(w: World, e: Event)
    ensures w.redis.stream <= Next(w, e).redis.stream
  {
    hide AttemptOf, RetryValues;
  }

  lemma CreatedIsOk(prior: seq<Values>, limit: int)
    ensures Inv(Created(prior), |prior|, limit)
  {
  }

  lemma {:induction false} RunInvariant(prior: seq<Values>, events: seq<Event>, limit: int)
    requires limit <= Decimal.MAX_INT && LegalRun(prior, events, limit)
    ensures Inv(Run(prior, events), |prior|, limit)
  {
    hide Inv, Next, Created;
    if events == [] {
      CreatedIsOk(prior, limit);
    } else {
      RunInvariant(prior, events[..|events| - 1], limit);
      NextKeepsInv(Run(prior, events[..|events| - 1]), |prior|, limit, events[|events| - 1]);
    }
  }

  // --- The theorems ---------------------------------------------------------------------------

  lemma LastMember(root: seq<nat>, r: nat, n: nat) returns (p: nat)
    requires r < n <= |root| && root[r] == r
    ensures p < n && root[p] == r && forall q :: p < q < n ==> root[q] != r
  {
    p := n - 1;
    while root[p] != r
      invariant r <= p < n && forall q :: p < q < n ==> root[q] != r
      decreases p
    {
      p := p - 1;
    }
  }

  /** In every reachable state a submitted task has exactly one live representative: a message that
      is undelivered, pending, being settled, answered or dead-lettered. */
  lemma OneLiveRepresentative(prior: seq<Values>, events: seq<Event>, limit: int, r: nat) returns (p: nat)
    requires limit <= Decimal.MAX_INT && LegalRun(prior, events, limit)
    requires |prior| <= r < |Run(prior, events).root| && Run(prior, events).root[r] == r
    ensures var w := Run(prior, events);
            && p < |w.root| && w.root[p] == r && Live(w, p)
            && forall q :: 0 <= q < |w.root| && w.root[q] == r && Live(w, q) ==> q == p
  {
    RunInvariant(prior, events, limit);
    var w := Run(prior, events);
    p := LastMember(w.root, r, |w.root|);
    forall q | 0 <= q < |w.root| && w.root[q] == r && Live(w, q) ensures q == p {
      assert Latest(w, q);
    }
  }

  /** The places of a message exclude each other, and results and dead letters name it at most once. */
  lemma PlacesAreExclusive(prior: seq<Values>, events: seq<Event>, limit: int, p: nat)
    requires limit <= Decimal.MAX_INT && LegalRun(prior, events, limit)
    ensures var w := Run(prior, events);
            && (p in w.redis.pending ==> p !in w.settling && !HasResult(w, p) && !IsDead(w, p) && p < w.redis.delivered)
            && (p in w.settling ==> !HasResult(w, p) && !IsDead(w, p) && p < w.redis.delivered)
            && (HasResult(w, p) ==> !IsDead(w, p) && p < w.redis.delivered)
            && (IsDead(w, p) ==> p < w.redis.delivered)
            && (forall j, k :: 0 <= j < k < |w.redis.results| ==>
                  w.redis.results[j].taskId != w.redis.results[k].taskId)
            && (forall j, k :: 0 <= j < k < |w.redis.dead| ==> w.redis.dead[j].taskId != w.redis.dead[k].taskId)
  {
    RunInvariant(prior, events, limit);
  }

  /** A submitted prompt is what the agent that polls it gets, without metadata. */
  lemma SubmittedIsPolled(r: Redis, prompt: string)
    ensures var q := Add(r, map["prompt" := prompt]);
            TaskAt(q, |r.stream|) == Task(|r.stream|, prompt, map[])
  {
  }

  // --- When a task is given up ----------------------------------------------------------------

  /** Settling a failure: while the counter is below the limit of the agent, the task is requeued and
      nothing is dead-lettered; otherwise it is dead-lettered with its prompt, the reason and its counter. */
  lemma FailureIsSettled(w: World, id: nat)
    requires id in w.settling && w.settling[id].Failure? && id < |w.redis.stream| && id < |w.root|
    ensures var q, o := Next(w, Settle(id)), w.settling[id];
            var v := w.redis.stream[id];
            && q.redis.results == w.redis.results
            && if AttemptOf(MetaOf(v)) < o.maxRetries
               then q.redis.dead == w.redis.dead && |q.redis.stream| == |w.redis.stream| + 1
               else && q.redis.stream == w.redis.stream
                    && q.redis.dead == w.redis.dead + [DeadEntry(id, PromptOf(v), o.reason,
                                                                 Decimal.Itoa(AttemptOf(MetaOf(v))))]
  {
    hide AttemptOf, RetryValues, Decimal.Itoa;
  }

  /** All agents have the same limit. */
  predicate SharedLimit(events: seq<Event>, limit: int) {
    forall e :: e in events && e.Acknowledge? && e.outcome.Failure? ==> e.outcome.maxRetries == limit
  }

  /** Failures being settled have the shared limit, and no dead letter gave up a task below it. */
  ghost predicate GivenUpOk(w: World, limit: int) {
    && (forall p :: p in w.settling && w.settling[p].Failure? ==> w.settling[p].maxRetries == limit)
    && (forall k :: 0 <= k < |w.redis.dead| ==>
          var p := w.redis.dead[k].taskId;
          p < |w.redis.stream| && AttemptOf(MetaOf(w.redis.stream[p])) >= limit)
  }

  lemma NextKeepsGivenUp(w: World, e: Event, limit: int)
    requires GivenUpOk(w, limit) && SharedLimit([e], limit)
    ensures GivenUpOk(Next(w, e), limit)
  {
    hide AttemptOf, MetaOf, PromptOf, RetryValues;
    StreamOnlyGrows(w, e);
    match e
    case Acknowledge(id, outcome) => assert e in [e];
    case Settle(id) =>
      if id in w.settling && w.settling[id].Failure? && id < |w.redis.stream| && id < |w.root| {
        FailureIsSettled(w, id);
      }
    case _ =>
  }

  lemma {:induction false} RunGivenUp(prior: seq<Values>, events: seq<Event>, limit: int)
    requires SharedLimit(events, limit)
    ensures GivenUpOk(Run(prior, events), limit)
  {
    hide Next, AttemptOf, MetaOf;
    if events != [] {
      var last := events[|events| - 1];
      assert SharedLimit([last], limit) by { assert last in events; }
      RunGivenUp(prior, events[..|events| - 1], limit);
      NextKeepsGivenUp(Run(prior, events[..|events| - 1]), last, limit);
    }
  }

  /** When all agents share a limit, a dead-lettered task was delivered exactly once more than the retries
      left to it when it was submitted. */
  lemma DeadTaskWasRetried(prior: seq<Values>, events: seq<Event>, limit: int, r: nat, p: nat)
    requires limit <= Decimal.MAX_INT && LegalRun(prior, events, limit) && SharedLimit(events, limit)
    requires |prior| <= r < |Run(prior, events).root| && Run(prior, events).root[r] == r
    requires p < |Run(prior, events).root| && Run(prior, events).root[p] == r && IsDead(Run(prior, events), p)
    ensures var w := Run(prior, events);
            && r < |w.redis.stream| && w.redis.delivered <= |w.root|
            && Members(w.root, r, w.redis.delivered) == Max(limit - AttemptOf(MetaOf(w.redis.stream[r])), 0) + 1
  {
    hide AttemptOf, MetaOf, PromptOf, Run;
    var w := Run(prior, events);
    RunInvariant(prior, events, limit);
    RunGivenUp(prior, events, limit);
    DeliveriesAreBounded(prior, events, limit, r);
    var k :| 0 <= k < |w.redis.dead| && w.redis.dead[k].taskId == p;
    assert Continues(w, p, limit);
    MembersGrow(w.root, r, p + 1, w.redis.delivered);
    if p == r {
      NoMembersBefore(w.root, r, r);
    }
  }

  /** The message was retried under another ID or dead-lettered. */
  predicate Lost(w: World, p: nat) {
    p < |w.root| && (IsDead(w, p) || !Latest(w, p))
  }

  lemma LostStaysLost(w: World, e: Event, p: nat)
    requires Lost(w, p)
    ensures Lost(Next(w, e), p)
  {
    hide AttemptOf, RetryValues;
    var q := Next(w, e);
    assert w.root <= q.root && w.redis.dead <= q.redis.dead;
    if IsDead(w, p) {
      var k :| 0 <= k < |w.redis.dead| && w.redis.dead[k].taskId == p;
      assert q.redis.dead[k].taskId == p;
    } else {
      var j :| p < j < |w.root| && w.root[j] == w.root[p];
      assert q.root[j] == q.root[p];
    }
  }

  /** A message that was retried or dead-lettered has no result in any later state. */
  lemma {:induction false} LostIsNeverAnswered(prior: seq<Values>, events: seq<Event>, later: seq<Event>, limit: int,
                                               p: nat)
    requires limit <= Decimal.MAX_INT && LegalRun(prior, events + later, limit)
    requires |prior| <= p && Lost(Run(prior, events), p)
    ensures Lost(Run(prior, events + later), p) && !HasResult(Run(prior, events + later), p)
    decreases |later|
  {
    hide Next;
    RunInvariant(prior, events + later, limit);
    if later == [] {
      assert events + later == events;
    } else {
      var before := events + later[..|later| - 1];
      assert (events + later)[..|events + later| - 1] == before;
      LostIsNeverAnswered(prior, events, later[..|later| - 1], limit, p);
      LostStaysLost(Run(prior, before), later[|later| - 1], p);
    }
    assert !HasResult(Run(prior, events + later), p) by {
      LostHasNoResult(Run(prior, events + later), |prior|, limit, p);
    }
  }

  lemma LostHasNoResult(w: World, start: nat, limit: int, p: nat)
    requires Inv(w, start, limit) && start <= p && Lost(w, p)
    ensures !HasResult(w, p)
  {
    hide Continues;
    assert HasResult(w, p) ==> Live(w, p);
    EntriesAreNoted(w);
  }

  /** Along a lineage the prompt and all metadata but the counter stay as submitted, and the counter
      counts the retries. */
  lemma ContentSurvivesRetries(prior: seq<Values>, events: seq<Event>, limit: int, p: nat)
    requires limit <= Decimal.MAX_INT && LegalRun(prior, events, limit)
    requires |prior| <= p < |Run(prior, events).root|
    ensures var w := Run(prior, events);
            && p < |w.redis.stream| && w.root[p] < |w.redis.stream|
            && PromptOf(w.redis.stream[p]) == PromptOf(w.redis.stream[w.root[p]])
            && MetaOf(w.redis.stream[p]) - {"attempt"} == MetaOf(w.redis.stream[w.root[p]]) - {"attempt"}
            && AttemptOf(MetaOf(w.redis.stream[p])) ==
               AttemptOf(MetaOf(w.redis.stream[w.root[p]])) + Members(w.root, w.root[p], p)
  {
    RunInvariant(prior, events, limit);
    assert Continues(Run(prior, events), p, limit);
  }

  lemma {:induction false} MembersGrow(root: seq<nat>, r: nat, m: nat, n: nat)
    requires m <= n <= |root|
    ensures Members(root, r, m) <= Members(root, r, n)
    decreases n
  {
    if m < n {
      MembersGrow(root, r, m, n - 1);
    }
  }

  /** A task is delivered at most once more than the retries left to it when it was submitted, even
      when agents with different limits work on the queue. */
  lemma DeliveriesAreBounded(prior: seq<Values>, events: seq<Event>, limit: int, r: nat)
    requires limit <= Decimal.MAX_INT && LegalRun(prior, events, limit)
    requires |prior| <= r < |Run(prior, events).root| && Run(prior, events).root[r] == r
    ensures var w := Run(prior, events);
            && r < |w.redis.stream| && w.redis.delivered <= |w.root|
            && Members(w.root, r, w.redis.delivered)
               <= Max(limit - AttemptOf(MetaOf(w.redis.stream[r])), 0) + 1
  {
    hide AttemptOf, MetaOf, PromptOf, Run;
    RunInvariant(prior, events, limit);
    var w := Run(prior, events);
    var p := LastMember(w.root, r, |w.root|);
    NoMembersAfter(w.root, r, p, |w.root|);
    MembersGrow(w.root, r, w.redis.delivered, |w.root|);
    assert Continues(w, p, limit);
    if p == r {
      NoMembersBefore(w.root, r, r);
    }
  }

  /** A task submitted with a prompt alone is delivered at most max(limit, 0) + 1 times. */
  lemma SubmittedTaskDeliveries(prior: seq<Values>, events: seq<Event>, limit: int, r: nat, prompt: string)
    requires limit <= Decimal.MAX_INT && LegalRun(prior, events, limit)
    requires |prior| <= r < |Run(prior, events).root| && Run(prior, events).root[r] == r
    requires r < |Run(prior, events).redis.stream| && Run(prior, events).redis.stream[r] == map["prompt" := prompt]
    ensures Run(prior, events).redis.delivered <= |Run(prior, events).root|
    ensures Members(Run(prior, events).root, r, Run(prior, events).redis.delivered) <= Max(limit, 0) + 1
  {
    hide Run, LegalRun;
    DeliveriesAreBounded(prior, events, limit, r);
    NoCounterMeansZero(map["prompt" := prompt]);
  }

  /** The counter is read as the number it is printed as. */
  lemma CounterIsRead(meta: Values, n: int)
    requires Decimal.MIN_INT <= n <= Decimal.MAX_INT
    requires "attempt" in meta && meta["attempt"] == Decimal.Itoa(n)
    ensures AttemptOf(meta) == n
  {
    Decimal.AtoiOfItoa(n);
  }

  /** A counter that is missing, empty or no number counts as zero. */
  lemma UnreadableCounterIsZero(meta: Values)
    requires "attempt" in meta ==>
               var a := meta["attempt"]; a == "" || exists k :: 1 <= k < |a| && !('0' <= a[k] <= '9')
    ensures AttemptOf(meta) == 0
  {
    if "attempt" in meta && meta["attempt"] != "" {
      var a := meta["attempt"];
      var k :| 1 <= k < |a| && !('0' <= a[k] <= '9');
      Decimal.BadDigitIsNoNumber(a, k);
    }
  }

  lemma NoCounterMeansZero(v: Values)
    requires "attempt" !in v
    ensures AttemptOf(MetaOf(v)) == 0
  {
    assert "attempt" !in MetaOf(v);
  }

  /** The controller reads back what an agent reported: the ID of the task, the result and the token counts. */
  lemma TokensReadBack(r: Redis, id: nat, result: string, inputTokens: int, outputTokens: int)
    requires Decimal.MIN_INT <= inputTokens <= Decimal.MAX_INT && Decimal.MIN_INT <= outputTokens <= Decimal.MAX_INT
    ensures var q := AddResult(r, id, result, inputTokens, outputTokens);
            var e := q.results[|r.results|];
            && q == r.(results := q.results) && |q.results| == |r.results| + 1 && r.results <= q.results
            && e.taskId == id && e.result == result
            && Decimal.ToInt64(e.inputTokens) == inputTokens
            && Decimal.ToInt64(e.outputTokens) == outputTokens
  {
    hide Decimal.ToInt64, Decimal.Itoa;
    Decimal.AtoiOfItoa(inputTokens);
    Decimal.AtoiOfItoa(outputTokens);
  }
}

/** The task queue over Redis streams: what each operation does to the streams. */
module QueueWire {
  import opened FlowTypes
  import Decimal

  type Values = map<string, string>

  /** A message ID is the position of the message in its stream. */
  datatype ResultEntry = ResultEntry(taskId: nat, result: string, inputTokens: string, outputTokens: string)

  datatype DeadEntry = DeadEntry(taskId: nat, prompt: string, error: string, attempt: string)

  /** The shared state: the task stream, how far the consumer group has read, the messages delivered
      but not acknowledged, the results stream and the dead-letter stream. */
  datatype Redis = Redis(
    stream: seq<Values>,
    delivered: nat,
    pending: set<nat>,
    results: seq<ResultEntry>,
    dead: seq<DeadEntry>)

  datatype Task = Task(id: nat, prompt: string, meta: Values)

  function PromptOf(v: Values): (p: string) {
    if "prompt" in v then v["prompt"] else ""
  }

  function MetaOf(v: Values): (m: Values) {
    v - {"prompt"}
  }

  function TaskAt(r: Redis, p: nat): (t: Task)
    requires p < |r.stream|
  {
    Task(p, PromptOf(r.stream[p]), MetaOf(r.stream[p]))
  }

  /** The retry counter of a task; anything unreadable counts as zero. */
  function AttemptOf(meta: Values): (n: int)
    ensures Decimal.MIN_INT <= n <= Decimal.MAX_INT
  {
    var a := Decimal.Atoi(if "attempt" in meta then meta["attempt"] else "");
    if a.Some? then a.value else 0
  }

  /** The message that takes the place of a failed task. */
  function RetryValues(t: Task): (v: Values) {
    map["prompt" := t.prompt, "attempt" := Decimal.Itoa(AttemptOf(t.meta) + 1)] + (t.meta - {"attempt"})
  }

  function XAck(r: Redis, id: nat): (q: Redis) {
    r.(pending := r.pending - {id})
  }

  function Add(r: Redis, v: Values): (q: Redis) {
    r.(stream := r.stream + [v])
  }

  function AddResult(r: Redis, id: nat, result: string, inputTokens: int, outputTokens: int): (q: Redis) {
    r.(results := r.results + [ResultEntry(id, result, Decimal.Itoa(inputTokens), Decimal.Itoa(outputTokens))])
  }

  /** The second command of a Nack: requeue while retries are left, otherwise dead-letter. */
  function AddFailure(r: Redis, t: Task, reason: string, maxRetries: int): (q: Redis) {
    if AttemptOf(t.meta) < maxRetries then Add(r, RetryValues(t))
    else r.(dead := r.dead + [DeadEntry(t.id, t.prompt, reason, Decimal.Itoa(AttemptOf(t.meta)))])
  }

  function Delivered(r: Redis): (q: Redis) {
    if r.delivered < |r.stream| then r.(pending := r.pending + {r.delivered}, delivered := r.delivered + 1) else r
  }

  /** The server that all agents share. */
  class Server {
    var redis: Redis

    constructor (redis: Redis)
      ensures this.redis == redis
    {
      this.redis := redis;
    }
  }

  /** One agent's view of the queue; agents may have different retry limits. */
  class Queue {
    const server: Server
    const maxRetries: int

    constructor (server: Server, maxRetries: int)
      ensures this.server == server && this.maxRetries == maxRetries
    {
      this.server := server;
      this.maxRetries := maxRetries;
    }

    method Submit(prompt: string) returns (id: nat)
      modifies server
      ensures id == |old(server.redis).stream|
      ensures server.redis == Add(old(server.redis), map["prompt" := prompt])
    {
      id := |server.redis.stream|;
      server.redis := server.redis.(stream := server.redis.stream + [map["prompt" := prompt]]);
    }

    method Poll() returns (task: Option<Task>)
      modifies server
      ensures server.redis == Delivered(old(server.redis))
      ensures var r := old(server.redis);
              task == if r.delivered < |r.stream| then Some(TaskAt(r, r.delivered)) else None
    {
      var r := server.redis;
      if r.delivered >= |r.stream| {
        return None;
      }
      var id := r.delivered;
      server.redis := r.(pending := r.pending + {id}, delivered := id + 1);
      var values := r.stream[id];
      var prompt := if "prompt" in values then values["prompt"] else "";
      var meta: Values := map[];
      var todo := values.Keys;
      while todo != {}
        invariant todo <= values.Keys
        invariant meta == map k | k in values && k !in todo && k != "prompt" :: values[k]
      {
        var k :| k in todo;
        todo := todo - {k};
        if k == "prompt" {
          continue;
        }
        meta := meta[k := values[k]];
      }
      assert meta == MetaOf(values);
      return Some(Task(id, prompt, meta));
    }

    method Ack(taskId: nat, result: string, inputTokens: int, outputTokens: int)
      modifies server
      ensures server.redis == AddResult(XAck(old(server.redis), taskId), taskId, result, inputTokens, outputTokens)
    {
      server.redis := server.redis.(pending := server.redis.pending - {taskId});
      server.redis := server.redis.(results := server.redis.results +
        [ResultEntry(taskId, result, Decimal.Itoa(inputTokens), Decimal.Itoa(outputTokens))]);
    }

    method RetryMessage(task: Task, attempt: int) returns (values: Values)
      ensures values == map["prompt" := task.prompt, "attempt" := Decimal.Itoa(attempt)] + (task.meta - {"attempt"})
    {
      hide Decimal.Itoa;
      values := map["prompt" := task.prompt, "attempt" := Decimal.Itoa(attempt)];
      ghost var base := values;
      var todo := task.meta.Keys;
      while todo != {}
        invariant todo <= task.meta.Keys
        invariant values == base + (task.meta - {"attempt"} - todo)
      {
        var k :| k in todo;
        ghost var before := todo;
        todo := todo - {k};
        if k != "attempt" {
          values := values[k := task.meta[k]];
          assert task.meta - {"attempt"} - todo == (task.meta - {"attempt"} - before)[k := task.meta[k]];
        } else {
          assert task.meta - {"attempt"} - todo == task.meta - {"attempt"} - before;
        }
      }
      assert task.meta - {"attempt"} - {} == task.meta - {"attempt"};
    }

    method Nack(task: Task, reason: string)
      modifies server
      ensures server.redis == AddFailure(XAck(old(server.redis), task.id), task, reason, maxRetries)
    {
      hide Decimal.Itoa, Decimal.Atoi;
      var attempt := 0;
      var a := Decimal.Atoi(if "attempt" in task.meta then task.meta["attempt"] else "");
      if a.Some? {
        attempt := a.value;
      }
      server.redis := server.redis.(pending := server.redis.pending - {task.id});
      if attempt < maxRetries {
        var values := RetryMessage(task, attempt + 1);
        server.redis := server.redis.(stream := server.redis.stream + [values]);
        return;
      }
      server.redis := server.redis.(dead := server.redis.dead +
        [DeadEntry(task.id, task.prompt, reason, Decimal.Itoa(attempt))]);
    }
  }
}

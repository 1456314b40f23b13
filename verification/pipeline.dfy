/** The whole producer path: a job scheduled on a queue, through the
    dispatcher, down to the connector and the store. */
module Pipeline {
  import opened Types
  import Protocol
  import Connectors
  import Jobs
  import Sidekiq

  /** A job scheduled on a dispatcher queue. */
  type SidekiqJob = Jobs.Job<Sidekiq.Queue>

  /** The queue's `enqueue` under the clock and random readings `env`. */
  function QueueEnqueue(env: Sidekiq.Env): Jobs.EnqueueFn<Sidekiq.Queue, Sidekiq.Backend>
  {
    (q, j, d, a, b) => Sidekiq.Enqueue(q, j, d, a, b, env)
  }

  function ScheduleIn(job: SidekiqJob, delay: Instant, args: seq<Primitive>, b: Sidekiq.Backend,
                      env: Sidekiq.Env, repr: Value -> string): Jobs.Performed<Sidekiq.Backend>
  {
    Jobs.PerformIn(job, delay, args, QueueEnqueue(env), b, repr)
  }

  function ScheduleNow(job: SidekiqJob, args: seq<Primitive>, b: Sidekiq.Backend,
                       env: Sidekiq.Env, repr: Value -> string): Jobs.Performed<Sidekiq.Backend>
  {
    Jobs.PerformAsync(job, args, QueueEnqueue(env), b, repr)
  }

  /** A connector that can push. */
  predicate CanPush(c: Connectors.Connector)
  {
    c.connected && c.handle.Some?
  }

  /** `after` holds one more entry than `before` at the head of the list of
      queue `queueName`: the final payload of `job`. Nothing else changes but
      the registry of queue names, which now holds `queueName`. */
  ghost predicate OneEntryAdded(before: Connectors.Store, after: Connectors.Store, job: SidekiqJob,
                                queueName: string, delay: Instant, args: seq<Primitive>, env: Sidekiq.Env)
  {
    var key := Protocol.QueueKey(queueName);
    var list := Connectors.ListAt(after, key);
    && |list| == |Connectors.ListAt(before, key)| + 1
    && list[1..] == Connectors.ListAt(before, key)
    && Sidekiq.IsEnqueuedPayload(list[0], job, queueName, delay, args, env)
    && after.queues == before.queues + {queueName}
    && forall k :: k != key ==> Connectors.ListAt(after, k) == Connectors.ListAt(before, k)
  }

  /** Scheduling a job on a connector that can push adds exactly one entry,
      the job's payload, to its queue's list and returns the generated job id;
      on any other connector it raises "Not connected" and changes nothing. */
  lemma ScheduleInEndToEnd(job: SidekiqJob, delay: Instant, args: seq<Primitive>, b: Sidekiq.Backend,
                           env: Sidekiq.Env, repr: Value -> string)
    ensures var r := ScheduleIn(job, delay, args, b, env, repr);
      CanPush(b.conn) ==>
        && r.jobId == Ok(Some(Sidekiq.GenerateJid(env.entropy)))
        && r.state.conn == b.conn
        && OneEntryAdded(b.store, r.state.store, job, Sidekiq.GetName(job.queue), delay, args, env)
    ensures !CanPush(b.conn) ==>
      ScheduleIn(job, delay, args, b, env, repr) == Jobs.Performed(b, Err(ConnectionError("Not connected")))
  {
    var e := Sidekiq.Enqueue(job.queue, job, delay, args, b, env);
    if CanPush(b.conn) {
      var p := e.result.value;
      assert Jobs.ExtractJid(p, repr) == Some(Sidekiq.GenerateJid(env.entropy));
    }
  }

  /** Scheduling now is scheduling after a zero delay; its `at` equals its `created_at`. */
  lemma ScheduleNowIsZeroDelay(job: SidekiqJob, args: seq<Primitive>, b: Sidekiq.Backend,
                               env: Sidekiq.Env, repr: Value -> string)
    ensures ScheduleNow(job, args, b, env, repr) == ScheduleIn(job, 0, args, b, env, repr)
    ensures CanPush(b.conn) ==>
      var list := Connectors.ListAt(ScheduleNow(job, args, b, env, repr).state.store, Protocol.QueueKey(Sidekiq.GetName(job.queue)));
      |list| > 0 && list[0][Protocol.ScheduleAt] == list[0][Protocol.Created]
  {
    ScheduleInEndToEnd(job, 0, args, b, env, repr);
  }

  /** Two jobs scheduled one after the other on the same queue leave two
      entries, the second one's payload at the head, even when the two
      payloads are equal: there is no deduplication by content. The ids
      differ when the random readings do. */
  lemma TwoSchedulesTwoEntries(job: SidekiqJob, args: seq<Primitive>, delay: Instant, b: Sidekiq.Backend,
                               env1: Sidekiq.Env, env2: Sidekiq.Env, repr: Value -> string)
    requires CanPush(b.conn)
    ensures var r1 := ScheduleIn(job, delay, args, b, env1, repr);
      var r2 := ScheduleIn(job, delay, args, r1.state, env2, repr);
      var key := Protocol.QueueKey(Sidekiq.GetName(job.queue));
      var list := Connectors.ListAt(r2.state.store, key);
      && r1.jobId.Ok? && r2.jobId.Ok?
      && (env1.entropy != env2.entropy ==> r1.jobId != r2.jobId)
      && |list| == |Connectors.ListAt(b.store, key)| + 2
      && list[2..] == Connectors.ListAt(b.store, key)
      && Sidekiq.IsEnqueuedPayload(list[0], job, Sidekiq.GetName(job.queue), delay, args, env2)
      && Sidekiq.IsEnqueuedPayload(list[1], job, Sidekiq.GetName(job.queue), delay, args, env1)
      && (env1 == env2 ==> list[0] == list[1])
  {
    var r1 := ScheduleIn(job, delay, args, b, env1, repr);
    ScheduleInEndToEnd(job, delay, args, b, env1, repr);
    ScheduleInEndToEnd(job, delay, args, r1.state, env2, repr);
    Sidekiq.JidInjective(env1.entropy, env2.entropy);
    var key := Protocol.QueueKey(Sidekiq.GetName(job.queue));
    var r2 := ScheduleIn(job, delay, args, r1.state, env2, repr);
    var l0, l1, l2 := Connectors.ListAt(b.store, key), Connectors.ListAt(r1.state.store, key), Connectors.ListAt(r2.state.store, key);
    assert l2[1..] == l1 && l1[1..] == l0;
    assert l2[2..] == l1[1..];
    assert l2[1] == l1[0];
    if env1 == env2 {
      assert l2[0].Keys == l2[1].Keys;
      assert forall k | k in l2[0] :: l2[0][k] == l2[1][k];
    }
  }

  /** A job `SayHello` scheduled on queue `low` with argument "Hello" a minute
      from now, through a connector that adopted a store connection. */
  lemma SayHelloScenario(env: Sidekiq.Env, repr: Value -> string)
    ensures var q := Sidekiq.NewQueue("low", Sidekiq.Dispatcher(None), None);
      var job := Jobs.NewJob(q, "SayHello");
      var b := Sidekiq.Backend(Connectors.FromExistingConnection(Some(Connectors.Adopted(0))), Connectors.Store({}, map[]));
      var r := ScheduleIn(job, 60000000, [Str("Hello")], b, env, repr);
      var list := Connectors.ListAt(r.state.store, "queue:low");
      && r.jobId == Ok(Some(Sidekiq.GenerateJid(env.entropy)))
      && r.state.store.queues == {"low"}
      && |list| == 1
      && list[0]["class"] == Prim(Str("SayHello"))
      && list[0]["queue"] == Prim(Str("low"))
      && list[0]["args"] == List([Str("Hello")])
      && list[0]["at"] == Prim(Float(EpochSeconds(env.createdAt) + 60.0))
      && list[0]["created_at"] == Timestamp(env.createdAt)
      && list[0]["enqueued_at"] == Timestamp(env.pushedAt)
      && list[0].Keys == {"class", "at", "args", "created_at", "queue", "jid", "enqueued_at"}
      && list[0]["jid"] == Prim(Str(r.jobId.value.value))
      && |list[0]["jid"].p.s| == 24
      && forall i :: 0 <= i < 24 ==> Sidekiq.IsHexDigit(list[0]["jid"].p.s[i])
  {
    var q := Sidekiq.NewQueue("low", Sidekiq.Dispatcher(None), None);
    var job := Jobs.NewJob(q, "SayHello");
    var b := Sidekiq.Backend(Connectors.FromExistingConnection(Some(Connectors.Adopted(0))), Connectors.Store({}, map[]));
    ScheduleInEndToEnd(job, 60000000, [Str("Hello")], b, env, repr);
    Protocol.QueueKeyExample();
    var r := ScheduleIn(job, 60000000, [Str("Hello")], b, env, repr);
    var list := Connectors.ListAt(r.state.store, "queue:low");
    assert OneEntryAdded(b.store, r.state.store, job, "low", 60000000, [Str("Hello")], env);
    assert |list| == 1;
    var p := list[0];
    assert Sidekiq.IsEnqueuedPayload(p, job, "low", 60000000, [Str("Hello")], env);
    assert EpochSeconds(60000000) == 60.0;
  }

  /** The outcome of scheduling inside `with connector:`: the backend
      afterwards, the job id if the block completed, and whether an exception
      was suppressed on exit. */
  datatype ScopedRun = ScopedRun(backend: Sidekiq.Backend, jobId: Option<Jobs.JobId>, suppressed: bool)

  /** Schedules a job inside a `with` block on the dispatcher's connector.
      The block runs whatever `__enter__` returned. */
  function ScheduleScoped(job: SidekiqJob, delay: Instant, args: seq<Primitive>, b: Sidekiq.Backend,
                          env: Sidekiq.Env, repr: Value -> string): (r: ScopedRun)
    ensures !r.backend.conn.connected && r.suppressed
    ensures Connectors.Valid(r.backend.conn)
    ensures r.jobId.Some? <==> !b.conn.connected || b.conn.handle.Some?
    ensures r.jobId.None? ==> r.backend.store == b.store
  {
    var entered := Connectors.Enter(b.conn);
    var r := ScheduleIn(job, delay, args, Sidekiq.Backend(entered.conn, b.store), env, repr);
    var inFlight := if r.jobId.Err? then Some(r.jobId.error) else None;
    var exited := Connectors.Exit(r.state.conn, inFlight);
    ScopedRun(Sidekiq.Backend(exited.conn, r.state.store),
              if r.jobId.Ok? then Some(r.jobId.value) else None,
              exited.suppressed)
  }

  /** A `with` block always ends disconnected and never lets an exception out.
      On a disconnected connector it enqueues the job with nothing notified;
      on one already connected with a handle, entry fails and is notified, yet
      the block still enqueues the job through the open connection. */
  lemma ScopedScheduleEndsDisconnected(job: SidekiqJob, delay: Instant, args: seq<Primitive>,
                                       b: Sidekiq.Backend, env: Sidekiq.Env, repr: Value -> string)
    ensures var s := ScheduleScoped(job, delay, args, b, env, repr);
      && !s.backend.conn.connected && s.suppressed && Connectors.Valid(s.backend.conn)
      && (!b.conn.connected ==>
            && s.jobId == Some(Some(Sidekiq.GenerateJid(env.entropy)))
            && s.backend.conn.notices == b.conn.notices
            && OneEntryAdded(b.store, s.backend.store, job, Sidekiq.GetName(job.queue), delay, args, env))
      && (CanPush(b.conn) ==>
            && s.jobId == Some(Some(Sidekiq.GenerateJid(env.entropy)))
            && |s.backend.conn.notices| == |b.conn.notices| + 1
            && OneEntryAdded(b.store, s.backend.store, job, Sidekiq.GetName(job.queue), delay, args, env))
  {
    var entered := Connectors.Enter(b.conn);
    ScheduleInEndToEnd(job, delay, args, Sidekiq.Backend(entered.conn, b.store), env, repr);
  }
}

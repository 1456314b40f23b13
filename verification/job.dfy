/** Jobs: a remote job class bound to the queue it is scheduled on. The queue
    is any queue type `Q`; its `enqueue` operation is passed in as a function
    over a state `S` (for a concrete queue, the backend it writes to). */
module Jobs {
  import opened Types
  import Protocol

  /** A job: its queue and the remote class name, both fixed at construction. */
  datatype Job<Q> = Job(queue: Q, className: string)

  /** A job id: the id text, or nothing when the queue reported none. */
  type JobId = Option<string>

  /** The result of a queue's `enqueue`: the state afterwards and the final payload, or the exception. */
  datatype Enqueued<S> = Enqueued(state: S, result: Result<Payload>)

  /** A queue's `enqueue(job, delay, *args)`, threading the state `S` it changes. */
  type EnqueueFn<!Q, !S> = (Q, Job<Q>, Instant, seq<Primitive>, S) -> Enqueued<S>

  /** The result of scheduling a job: the state afterwards and the job id, or the exception. */
  datatype Performed<S> = Performed(state: S, jobId: Result<JobId>)

  function NewJob<Q>(queue: Q, className: string): (j: Job<Q>)
    ensures Klass(j) == className && j.queue == queue
  {
    Job(queue, className)
  }

  /** The remote class name. */
  function Klass<Q>(j: Job<Q>): (k: string)
    ensures j == Job(j.queue, k)
  {
    j.className
  }

  /** Whether the worker shall retry the job on failure: always for a plain job. */
  function Retry<Q>(j: Job<Q>): (r: bool)
    ensures r
  {
    true
  }

  /** `str(v)`: the identity on strings; any other value is rendered by
      Python's own formatting, supplied as `repr`. */
  function StrForm(v: Value, repr: Value -> string): (s: string)
    ensures v.Prim? && v.p.Str? ==> s == v.p.s
    ensures !(v.Prim? && v.p.Str?) ==> s == repr(v)
  {
    match v
    case Prim(Str(s)) => s
    case _ => repr(v)
  }

  /** The job id reported in a final payload: the string form of its `jid` field, if it has one. */
  function ExtractJid(result: Payload, repr: Value -> string): (id: JobId)
    ensures id.Some? <==> Protocol.JobId in result
    ensures id.Some? ==> id.value == StrForm(result[Protocol.JobId], repr)
  {
    if Protocol.JobId in result then Some(StrForm(result[Protocol.JobId], repr)) else None
  }

  /** Schedules the job to run `span` after now: enqueues it on its queue
      once and reports the job id; an exception from the queue propagates. */
  function PerformIn<Q, S>(job: Job<Q>, span: Instant, args: seq<Primitive>,
                           enqueue: EnqueueFn<Q, S>, s: S, repr: Value -> string): (r: Performed<S>)
    ensures r.state == enqueue(job.queue, job, span, args, s).state
    ensures r.jobId.Err? <==> enqueue(job.queue, job, span, args, s).result.Err?
    ensures r.jobId.Err? ==> r.jobId.error == enqueue(job.queue, job, span, args, s).result.error
    ensures r.jobId.Ok? ==> r.jobId.value == ExtractJid(enqueue(job.queue, job, span, args, s).result.value, repr)
  {
    var e := enqueue(job.queue, job, span, args, s);
    match e.result
    case Err(error) => Performed(e.state, Err(error))
    case Ok(payload) => Performed(e.state, Ok(ExtractJid(payload, repr)))
  }

  /** Schedules the job to run now. */
  function PerformAsync<Q, S>(job: Job<Q>, args: seq<Primitive>,
                              enqueue: EnqueueFn<Q, S>, s: S, repr: Value -> string): (r: Performed<S>)
    ensures r == PerformIn(job, 0, args, enqueue, s, repr)
    ensures r.state == enqueue(job.queue, job, 0, args, s).state
  {
    PerformIn(job, 0, args, enqueue, s, repr)
  }

  /** One call of `enqueue`, as a recording queue sees it. */
  datatype Call<Q> = Call(queue: Q, job: Job<Q>, span: Instant, args: seq<Primitive>)

  /** A queue that records every call and answers with the payload `answer`. */
  function Recorder<Q>(answer: Payload): EnqueueFn<Q, seq<Call<Q>>>
  {
    (q, j, d, a, log) => Enqueued(log + [Call(q, j, d, a)], Ok(answer))
  }

  /** Scheduling calls the job's queue exactly once, passing the job itself,
      the delay and the arguments unchanged and in order; the job id is the
      `jid` of the answer, or nothing when the answer has none. */
  lemma PerformInCallsEnqueueOnce<Q>(job: Job<Q>, span: Instant, args: seq<Primitive>,
                                     log: seq<Call<Q>>, answer: Payload, repr: Value -> string)
    ensures var r := PerformIn(job, span, args, Recorder(answer), log, repr);
      && r.state == log + [Call(job.queue, job, span, args)]
      && (Protocol.JobId in answer && answer[Protocol.JobId].Prim? && answer[Protocol.JobId].p.Str? ==>
            r.jobId == Ok(Some(answer[Protocol.JobId].p.s)))
      && (Protocol.JobId !in answer ==> r.jobId == Ok(None))
  {
  }

  /** Scheduling now calls the job's queue exactly once, with a zero delay
      and the arguments unchanged and in order. */
  lemma PerformAsyncCallsWithZeroDelay<Q>(job: Job<Q>, args: seq<Primitive>,
                                          log: seq<Call<Q>>, answer: Payload, repr: Value -> string)
    ensures PerformAsync(job, args, Recorder(answer), log, repr).state == log + [Call(job.queue, job, 0, args)]
  {
  }
}

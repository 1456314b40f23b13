/** The dispatcher and its queues. A queue turns a job, a delay and the
    arguments into a payload; the dispatcher gives the payload a fresh job id
    and hands it to the connector, which writes it to the store. */
module Sidekiq {
  import opened Types
  import Protocol
  import Connectors
  import Jobs

  newtype byte = x: int | 0 <= x < 256

  /** The number of random bytes in a job id. */
  const JidBytes := 12

  /** The random bytes a job id is made of: the reading of the system's
      random source for one call. */
  type Entropy = b: seq<byte> | |b| == JidBytes witness [0, 0, 0, 0, 0, 0, 0, 0, 0, 0, 0, 0]

  /** A lower-case hexadecimal digit. */
  predicate IsHexDigit(c: char)
  {
    '0' <= c <= '9' || 'a' <= c <= 'f'
  }

  function DigitValue(c: char): (n: int)
    requires IsHexDigit(c)
    ensures 0 <= n < 16
  {
    if c <= '9' then c as int - '0' as int else c as int - 'a' as int + 10
  }

  function HexDigit(n: int): (c: char)
    requires 0 <= n < 16
    ensures IsHexDigit(c) && DigitValue(c) == n
  {
    if n < 10 then ('0' as int + n) as char else ('a' as int + n - 10) as char
  }

  lemma HexDigitOfValue(c: char)
    requires IsHexDigit(c)
    ensures HexDigit(DigitValue(c)) == c
  {
  }

  /** The lower-case hexadecimal text of `bytes`, two digits per byte, high digit first. */
  function Hex(bytes: seq<byte>): (s: string)
    ensures |s| == 2 * |bytes|
    ensures forall i :: 0 <= i < |s| ==> IsHexDigit(s[i])
  {
    if bytes == [] then ""
    else [HexDigit(bytes[0] as int / 16), HexDigit(bytes[0] as int % 16)] + Hex(bytes[1..])
  }

  /** The bytes a hexadecimal text stands for, if it is one. */
  function Unhex(s: string): (r: Option<seq<byte>>)
    ensures r.Some? ==> |s| == 2 * |r.value|
  {
    if s == [] then Some([])
    else if |s| == 1 || !IsHexDigit(s[0]) || !IsHexDigit(s[1]) then None
    else match Unhex(s[2..])
      case None => None
      case Some(rest) => Some([(DigitValue(s[0]) * 16 + DigitValue(s[1])) as byte] + rest)
  }

  /** Decoding the hexadecimal text of some bytes gives the bytes back. */
  lemma {:induction false} UnhexHex(bytes: seq<byte>)
    ensures Unhex(Hex(bytes)) == Some(bytes)
  {
    if bytes != [] {
      var s := Hex(bytes);
      var b := bytes[0] as int;
      assert s[2..] == Hex(bytes[1..]);
      UnhexHex(bytes[1..]);
      assert DigitValue(s[0]) * 16 + DigitValue(s[1]) == b;
      assert [bytes[0]] + bytes[1..] == bytes;
    }
  }

  /** Every hexadecimal text is the text of the bytes it decodes to. */
  lemma {:induction false} HexUnhex(s: string)
    requires Unhex(s).Some?
    ensures Hex(Unhex(s).value) == s
  {
    if s != [] {
      var rest := Unhex(s[2..]).value;
      var b := (DigitValue(s[0]) * 16 + DigitValue(s[1])) as byte;
      HexUnhex(s[2..]);
      HexDigitOfValue(s[0]);
      HexDigitOfValue(s[1]);
      assert ([b] + rest)[1..] == rest;
      assert s == [s[0], s[1]] + s[2..];
    }
  }

  /** A job id: the hexadecimal text of twelve random bytes. */
  function GenerateJid(entropy: Entropy): (jid: string)
    ensures |jid| == 2 * JidBytes
    ensures forall i :: 0 <= i < |jid| ==> IsHexDigit(jid[i])
    ensures Unhex(jid) == Some(entropy)
  {
    UnhexHex(entropy);
    Hex(entropy)
  }

  /** Distinct random readings give distinct job ids. */
  lemma JidInjective(e1: Entropy, e2: Entropy)
    ensures GenerateJid(e1) == GenerateJid(e2) <==> e1 == e2
  {
  }

  /** How a queue's full name is formed: the default `queue:<name>` template,
      or a resolver from the queue's name to its full name. */
  datatype Namespace = EmptySidekiqNamespace | Resolver(resolve: string -> string)

  /** The dispatcher. Its connector and the store are the `Backend` threaded
      through its calls; it also keeps a namespace that is only forwarded. */
  datatype Dispatcher = Dispatcher(queueNamespace: Option<Namespace>)

  /** A queue: its name, its dispatcher and its namespace. */
  datatype Queue = Queue(name: string, kiq: Dispatcher, namespace: Namespace)

  /** A queue named `name`; without a namespace it uses the default template. */
  function NewQueue(name: string, kiq: Dispatcher, namespace: Option<Namespace>): (q: Queue)
    ensures GetName(q) == name && q.kiq == kiq
    ensures namespace.None? ==> q.namespace.EmptySidekiqNamespace?
    ensures namespace.Some? && namespace.value.EmptySidekiqNamespace? ==> q.namespace.EmptySidekiqNamespace?
    ensures namespace.Some? && namespace.value.Resolver? ==> q.namespace.Resolver? && q.namespace.resolve == namespace.value.resolve
  {
    Queue(name, kiq, if namespace.Some? then namespace.value else EmptySidekiqNamespace)
  }

  /** The name the queue was built with. */
  function GetName(q: Queue): (name: string)
    ensures name == q.name
  {
    q.name
  }

  /** The full name of `q` under its namespace. */
  function GetFullName(q: Queue): (full: string)
    ensures q.namespace.EmptySidekiqNamespace? ==> full == "queue:" + q.name
    ensures q.namespace.Resolver? ==> full == q.namespace.resolve(q.name)
  {
    match q.namespace
    case EmptySidekiqNamespace => Protocol.QueueKey(GetName(q))
    case Resolver(resolve) => resolve(GetName(q))
  }

  /** Two queues built with the same name and no namespace, even on
      different dispatchers, share their full name; queues built with
      different names never do. */
  lemma SameNameSameFullName(name1: string, name2: string, kiq1: Dispatcher, kiq2: Dispatcher)
    ensures GetFullName(NewQueue(name1, kiq1, None)) == GetFullName(NewQueue(name2, kiq2, None)) <==> name1 == name2
  {
    Protocol.QueueKeyInjective(name1, name2);
  }

  /** The connector and the store behind it. */
  datatype Backend = Backend(conn: Connectors.Connector, store: Connectors.Store)

  /** An argument passed to the connector's push. */
  datatype PushArgument =
    | Name(name: string)
    | Values(values: Payload)
    | Key(key: string)
    | QueueObject(queue: Queue)
    | NamespaceObject(namespace: Option<Namespace>)

  /** The connector's push takes a queue name, the values and the timestamp key. */
  const PushParameters := 3

  const ArityMessage := "push_to_queue() takes 4 positional arguments but 5 were given"

  /** Calls the connector's push with `args`. A call with the wrong number of
      arguments raises before the connector runs. */
  function InvokeConnectorPush(c: Connectors.Connector, store: Connectors.Store,
                               args: seq<PushArgument>, now: Instant): (r: Connectors.Pushed)
    ensures |args| != PushParameters ==> r == Connectors.Pushed(store, Err(TypeError(ArityMessage)))
    ensures |args| == PushParameters && args[0].Name? && args[1].Values? && args[2].Key? ==>
      r == Connectors.PushToQueue(c, store, args[0].name, args[1].values, args[2].key, now)
  {
    if |args| != PushParameters then
      Connectors.Pushed(store, Err(TypeError(ArityMessage)))
    else
      match (args[0], args[1], args[2])
      case (Name(n), Values(v), Key(k)) => Connectors.PushToQueue(c, store, n, v, k, now)
      // argument kinds that do not bind to the connector's parameters
      case _ => Connectors.Pushed(store, Err(TypeError("push_to_queue() got arguments of the wrong kind")))
  }

  /** The result of the dispatcher's push: the backend afterwards and the job
      id with the final payload, or the exception. */
  datatype Dispatched = Dispatched(backend: Backend, result: Result<(string, Payload)>)

  /** `final` is `mappedArgs` with the job id `jid` and the enqueue timestamp
      of `t` added, and every other field unchanged. */
  ghost predicate IsFinalPayload(mappedArgs: Payload, final: Payload, jid: string, t: Instant)
  {
    && Protocol.JobId in final && final[Protocol.JobId] == Prim(Str(jid))
    && Protocol.Enqueued in final && final[Protocol.Enqueued] == Timestamp(t)
    && (forall k :: k != Protocol.JobId && k != Protocol.Enqueued ==> (k in final <==> k in mappedArgs))
    && (forall k :: k != Protocol.JobId && k != Protocol.Enqueued && k in mappedArgs ==> final[k] == mappedArgs[k])
  }

  /** Completes a push once the connector has answered. */
  function Complete(b: Backend, jid: string, withJid: Payload, pushed: Connectors.Pushed): Dispatched
  {
    match pushed.outcome
    case Err(e) => Dispatched(b.(store := pushed.store), Err(e))
    case Ok(t) => Dispatched(b.(store := pushed.store), Ok((jid, withJid[Protocol.Enqueued := Timestamp(t)])))
  }

  /** The dispatcher's push as written: it passes the queue object, the values,
      the timestamp key and its namespace, four arguments to a push that takes three. */
  function PushToQueueAsWritten(kiq: Dispatcher, queue: Queue, mappedArgs: Payload, b: Backend,
                                entropy: Entropy, now: Instant): Dispatched
  {
    var jid := GenerateJid(entropy);
    var withJid := mappedArgs[Protocol.JobId := Prim(Str(jid))];
    var args := [QueueObject(queue), Values(withJid), Key(Protocol.Enqueued), NamespaceObject(kiq.queueNamespace)];
    Complete(b, jid, withJid, InvokeConnectorPush(b.conn, b.store, args, now))
  }

  /** As written, every push raises a TypeError and writes nothing, whatever
      the state of the connector. */
  lemma AsWrittenPushAlwaysRaises(kiq: Dispatcher, queue: Queue, mappedArgs: Payload, b: Backend,
                                  entropy: Entropy, now: Instant)
    ensures PushToQueueAsWritten(kiq, queue, mappedArgs, b, entropy, now) == Dispatched(b, Err(TypeError(ArityMessage)))
  {
  }

  /** The dispatcher's push: gives a copy of `mappedArgs` a fresh job id,
      has the connector push it to the queue's name, and stamps the enqueue
      instant the connector reports. Connector errors propagate. */
  function PushToQueue(kiq: Dispatcher, queue: Queue, mappedArgs: Payload, b: Backend,
                       entropy: Entropy, now: Instant): (r: Dispatched)
    ensures r.backend.conn == b.conn
    ensures r.result.Err? <==> !b.conn.connected || b.conn.handle.None?
    ensures r.result.Err? ==> r.backend == b && r.result.error == ConnectionError("Not connected")
    ensures r.result.Ok? ==> r.result.value.0 == GenerateJid(entropy)
    ensures r.result.Ok? ==> IsFinalPayload(mappedArgs, r.result.value.1, r.result.value.0, now)
    ensures r.result.Ok? ==> Connectors.PushedOnce(b.store, r.backend.store, GetName(queue), r.result.value.1)
  {
    var jid := GenerateJid(entropy);
    var withJid := mappedArgs[Protocol.JobId := Prim(Str(jid))];
    var args := [Name(GetName(queue)), Values(withJid), Key(Protocol.Enqueued)];
    Complete(b, jid, withJid, InvokeConnectorPush(b.conn, b.store, args, now))
  }

  /** The clock and random readings of one enqueue: the instant the queue
      reads, the instant the connector reads, and the id bytes. */
  datatype Env = Env(createdAt: Instant, pushedAt: Instant, entropy: Entropy)

  /** The payload a queue builds: exactly the five queue fields. */
  function BuildPayload(klass: string, now: Instant, delay: Instant, args: seq<Primitive>,
                        queueName: string): (data: Payload)
    ensures data.Keys == Protocol.QueueWrittenFields
    ensures data[Protocol.ClassName] == Prim(Str(klass))
    ensures data[Protocol.Args] == List(args)
    ensures data[Protocol.QueueField] == Prim(Str(queueName))
    ensures data[Protocol.Created] == Timestamp(now)
    ensures data[Protocol.ScheduleAt] == Prim(Float(EpochSeconds(now) + EpochSeconds(delay)))
  {
    TimestampFaithful(now, now, delay);
    map[Protocol.ClassName := Prim(Str(klass)),
        Protocol.ScheduleAt := Timestamp(now + delay),
        Protocol.Args := List(args),
        Protocol.Created := Timestamp(now),
        Protocol.QueueField := Prim(Str(queueName))]
  }

  /** `p` is the final payload of `job` enqueued on a queue named `queueName`
      with `delay` and `args` under the readings `env`. */
  ghost predicate IsEnqueuedPayload<Q>(p: Payload, job: Jobs.Job<Q>, queueName: string, delay: Instant,
                                 args: seq<Primitive>, env: Env)
  {
    && p.Keys == Protocol.QueueWrittenFields + {Protocol.JobId, Protocol.Enqueued}
    && p[Protocol.ClassName] == Prim(Str(Jobs.Klass(job)))
    && p[Protocol.Args] == List(args)
    && p[Protocol.QueueField] == Prim(Str(queueName))
    && p[Protocol.Created] == Timestamp(env.createdAt)
    && p[Protocol.ScheduleAt] == Prim(Float(EpochSeconds(env.createdAt) + EpochSeconds(delay)))
    && p[Protocol.JobId] == Prim(Str(GenerateJid(env.entropy)))
    && p[Protocol.Enqueued] == Timestamp(env.pushedAt)
  }

  /** Enqueues `job` on `queue` to run `delay` after now. The final payload
      is returned, and the same payload is at the head of the queue's list. */
  function Enqueue(queue: Queue, job: Jobs.Job<Queue>, delay: Instant, args: seq<Primitive>,
                   b: Backend, env: Env): (r: Jobs.Enqueued<Backend>)
    ensures r.state.conn == b.conn
    ensures r.result.Err? <==> !b.conn.connected || b.conn.handle.None?
    ensures r.result.Err? ==> r.state == b && r.result.error == ConnectionError("Not connected")
    ensures r.result.Ok? ==> IsEnqueuedPayload(r.result.value, job, GetName(queue), delay, args, env)
    ensures r.result.Ok? ==> Connectors.PushedOnce(b.store, r.state.store, GetName(queue), r.result.value)
  {
    var data := BuildPayload(Jobs.Klass(job), env.createdAt, delay, args, GetName(queue));
    var d := PushToQueue(queue.kiq, queue, data, b, env.entropy, env.pushedAt);
    match d.result
    case Err(e) => Jobs.Enqueued(d.backend, Err(e))
    case Ok((jid, result)) =>
      Protocol.LateFieldsAreFresh();
      assert result[Protocol.JobId := Prim(Str(jid))] == result;
      Jobs.Enqueued(d.backend, Ok(result[Protocol.JobId := Prim(Str(jid))]))
  }

  /** The list a queue's entries are written to is its full name when the
      queue has the default namespace. */
  lemma DefaultNamespaceWritesToFullName(q: Queue)
    requires q.namespace.EmptySidekiqNamespace?
    ensures Protocol.QueueKey(GetName(q)) == GetFullName(q)
  {
  }
}

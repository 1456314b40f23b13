/** The connector: the producer's single connection to the backend store.
    It carries a connected flag that `Connect`, `ReuseConnection` and
    `Disconnect` toggle, the handle of the store connection, and the log of
    notifications sent to its error handler. The store itself is a value
    passed in and out: a set of queue names and a map of lists. */
module Connectors {
  import opened Types
  import Protocol

  /** A stored entry. The backend holds the JSON text of the payload; the
      model keeps the payload itself, since the encoding is foreign. */
  type Record = Payload

  /** The backend store. The registry key `queues` and the list keys
      `queue:<name>` never coincide (`Protocol.RegistryIsNoQueueKey`), so the
      store splits into a registry set and a map of lists. */
  datatype Store = Store(queues: set<string>, lists: map<string, seq<Record>>)

  /** The list under `key`; a missing key reads as the empty list. */
  function ListAt(store: Store, key: string): seq<Record>
  {
    if key in store.lists then store.lists[key] else []
  }

  /** Where a new connection goes. */
  datatype Config = Config(host: string, port: int, db: int)

  const DefaultConfig := Config("localhost", 6379, 0)

  /** A store connection: one the connector opened itself, or one it adopted. */
  datatype Handle = Opened(config: Config) | Adopted(id: nat)

  /** One call to the error handler. */
  datatype Notice = Notice(message: string, error: Error)

  datatype Connector = Connector(config: Config, connected: bool, handle: Option<Handle>, notices: seq<Notice>)

  /** The state invariant every operation keeps: a disconnected connector holds no handle. */
  predicate Valid(c: Connector)
  {
    !c.connected ==> c.handle.None?
  }

  /** The result of a state-changing call: the new connector and whether it raised. */
  datatype Step = Step(conn: Connector, outcome: Outcome)

  /** A new connector for `config`: disconnected, without handle, nothing notified. */
  function New(config: Config): (c: Connector)
    ensures !c.connected && c.handle == None
    ensures c.config == config && c.notices == []
    ensures Valid(c)
  {
    Connector(config, false, None, [])
  }

  /** Flips the connected flag and nothing else. */
  function Toggled(c: Connector): (t: Connector)
    ensures t.connected != c.connected
    ensures t == c.(connected := t.connected)
  {
    c.(connected := !c.connected)
  }

  /** Opens a new store connection for the configured host, port and database. */
  function Connect(c: Connector): (r: Step)
    ensures r.outcome.Pass? <==> !c.connected
    ensures r.outcome.Pass? ==> r.conn.connected && r.conn.handle == Some(Opened(c.config))
    ensures r.outcome.Pass? ==> r.conn.config == c.config && r.conn.notices == c.notices
    ensures r.outcome.Fail? ==> r.outcome.error == ConnectionError("Already connected") && r.conn == c
  {
    if c.connected then
      Step(c, Fail(ConnectionError("Already connected")))
    else
      Step(Toggled(c.(handle := Some(Opened(c.config)))), Pass)
  }

  /** Adopts an existing store connection instead of opening one. The adopted
      handle may be absent, which leaves a connected connector that cannot push. */
  function ReuseConnection(c: Connector, redis: Option<Handle>): (r: Step)
    ensures r.outcome.Pass? <==> !c.connected
    ensures r.outcome.Pass? ==> r.conn.connected && r.conn.handle == redis
    ensures r.outcome.Pass? ==> r.conn.config == c.config && r.conn.notices == c.notices
    ensures r.outcome.Fail? ==> r.outcome.error == ConnectionError("Already connected") && r.conn == c
  {
    if c.connected then
      Step(c, Fail(ConnectionError("Already connected")))
    else
      Step(Toggled(c.(handle := redis)), Pass)
  }

  /** Drops the store connection. */
  function Disconnect(c: Connector): (r: Step)
    ensures r.outcome.Pass? <==> c.connected
    ensures r.outcome.Pass? ==> !r.conn.connected && r.conn.handle == None
    ensures r.outcome.Pass? ==> r.conn.config == c.config && r.conn.notices == c.notices
    ensures r.outcome.Fail? ==> r.outcome.error == ConnectionError("Not connected") && r.conn == c
  {
    if !c.connected then
      Step(c, Fail(ConnectionError("Not connected")))
    else
      Step(Toggled(c).(handle := None), Pass)
  }

  /** A connector with the default configuration that adopts `redis` at once. */
  function FromExistingConnection(redis: Option<Handle>): (c: Connector)
    ensures c.connected && c.handle == redis
    ensures c.config == DefaultConfig && c.notices == []
  {
    ReuseConnection(New(DefaultConfig), redis).conn
  }

  /** The payload with `key` set to the timestamp of `now`; every other field as in `values`. */
  function Stamped(values: Payload, key: string, now: Instant): (rec: Record)
    ensures key in rec && rec[key] == Timestamp(now)
    ensures forall k :: k != key ==> (k in rec <==> k in values)
    ensures forall k :: k != key && k in values ==> rec[k] == values[k]
  {
    values[key := Timestamp(now)]
  }

  /** `after` is `before` with `record` pushed once onto the head of the list
      of queue `queueName` and the name registered; every other list is as it was. */
  ghost predicate PushedOnce(before: Store, after: Store, queueName: string, record: Record)
  {
    && after.queues == before.queues + {queueName}
    && ListAt(after, Protocol.QueueKey(queueName)) == [record] + ListAt(before, Protocol.QueueKey(queueName))
    && forall k :: k != Protocol.QueueKey(queueName) ==> ListAt(after, k) == ListAt(before, k)
  }

  /** The result of a push: the store afterwards and the enqueue instant, or the exception. */
  datatype Pushed = Pushed(store: Store, outcome: Result<Instant>)

  /** Pushes `values`, stamped with the clock reading `now` under `tstampKey`,
      onto the head of the list of queue `queueName`, and adds `queueName` to
      the registry of queues. */
  function PushToQueue(c: Connector, store: Store, queueName: string, values: Payload,
                       tstampKey: string, now: Instant): (r: Pushed)
    ensures r.outcome.Err? <==> !c.connected || c.handle.None?
    ensures r.outcome.Err? ==> r.outcome.error == ConnectionError("Not connected") && r.store == store
    ensures r.outcome.Ok? ==> r.outcome.value == now
    ensures r.outcome.Ok? ==> PushedOnce(store, r.store, queueName, Stamped(values, tstampKey, now))
  {
    if !c.connected || c.handle.None? then
      Pushed(store, Err(ConnectionError("Not connected")))
    else
      var data := Stamped(values, tstampKey, now);
      var key := Protocol.QueueKey(queueName);
      Pushed(Store(store.queues + {queueName}, store.lists[key := [data] + ListAt(store, key)]), Ok(now))
  }

  /** Registering a queue that is already registered leaves the registry as it was. */
  lemma PushKeepsKnownRegistry(c: Connector, store: Store, queueName: string, values: Payload,
                               tstampKey: string, now: Instant)
    requires queueName in store.queues
    ensures PushToQueue(c, store, queueName, values, tstampKey, now).store.queues == store.queues
  {
  }

  /** The result of entering a `with` block: the connector afterwards and the
      value bound by `as` (the connector, or nothing when connecting failed). */
  datatype Entered = Entered(conn: Connector, target: Option<Connector>)

  /** Connects on entry to a `with` block. A connection error is reported to
      the error handler and swallowed. */
  function Enter(c: Connector): (r: Entered)
    ensures r.target.Some? <==> !c.connected
    ensures r.target.Some? ==> r.target.value == r.conn && r.conn.connected && r.conn.notices == c.notices
    ensures r.target.Some? ==> r.conn.handle == Some(Opened(c.config)) && r.conn.config == c.config
    ensures r.target.None? ==>
      r.conn == c.(notices := c.notices + [Notice("Error while establishing connection", ConnectionError("Already connected"))])
  {
    var step := Connect(c);
    match step.outcome
    case Pass => Entered(step.conn, Some(step.conn))
    case Fail(e) => Entered(c.(notices := c.notices + [Notice("Error while establishing connection", e)]), None)
  }

  /** The result of leaving a `with` block: the connector afterwards and
      whether an exception in flight is suppressed. */
  datatype Exited = Exited(conn: Connector, suppressed: bool)

  /** Disconnects on exit from a `with` block, whatever the state on entry;
      an exception in flight is reported to the error handler and suppressed. */
  function Exit(c: Connector, inFlight: Option<Error>): (r: Exited)
    ensures !r.conn.connected && r.suppressed
    ensures c.connected ==> r.conn.handle == None
    ensures !c.connected ==> r.conn.handle == c.handle
    ensures r.conn.config == c.config
    ensures inFlight.None? ==> r.conn.notices == c.notices
    ensures inFlight.Some? ==> r.conn.notices == c.notices + [Notice("Connection failure", inFlight.value)]
  {
    var c1 := if c.connected then Disconnect(c).conn else c;
    var c2 := if inFlight.Some? then c1.(notices := c1.notices + [Notice("Connection failure", inFlight.value)]) else c1;
    Exited(c2, true)
  }

  /** Every state change keeps the invariant that a disconnected connector holds no handle. */
  lemma ValidPreserved(c: Connector, redis: Option<Handle>, inFlight: Option<Error>)
    requires Valid(c)
    ensures Valid(Connect(c).conn) && Valid(ReuseConnection(c, redis).conn) && Valid(Disconnect(c).conn)
    ensures Valid(Enter(c).conn) && Valid(Exit(c, inFlight).conn)
  {
  }

  /** Entering and then leaving a `with` block on a disconnected connector
      returns it to a fresh-looking state: disconnected, without handle, and
      with one notice exactly when the block raised. */
  lemma ScopedRoundTrip(c: Connector, inFlight: Option<Error>)
    requires !c.connected
    ensures var r := Exit(Enter(c).conn, inFlight);
      && !r.conn.connected && r.conn.handle == None && r.conn.config == c.config && Valid(r.conn)
      && |r.conn.notices| == |c.notices| + (if inFlight.Some? then 1 else 0)
  {
  }
}

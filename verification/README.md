# pykiq producer pipeline in Dafny

This project models the producer side of pykiq, a Python client that enqueues
jobs for Sidekiq workers through Redis. A job is bound to a queue. Scheduling
it makes the queue build a five-field payload (`class`, `at`, `args`,
`created_at`, `queue`). The dispatcher (the `Sidekiq` class) adds a 24-digit
hexadecimal job id (`jid`) and hands the payload to the connector. The
connector checks its connected flag, stamps `enqueued_at`, registers the queue
name in the `queues` set and pushes the entry onto the head of the list
`queue:<name>`.

Modules follow the source files:

- `Types` (types.dfy): exceptions, `Option`/`Result`, the primitive payload values of `job.py`, and clock instants.
- `Protocol` (protocol.dfy): field names and store keys.
- `Namespaces` (namespaces.dfy): the empty and prefixed namespaces.
- `Connectors` (connector.dfy): the connector state machine, the `with`-block pair and the push, over a store value.
- `Jobs` (job.dfy): jobs, generic over the queue type; the queue's `enqueue` is a function parameter.
- `Sidekiq` (sidekiq.dfy): job ids, queues, naming, payload construction and the dispatcher's push.
- `Pipeline` (pipeline.dfy): the whole path from a job to the store, end to end.

Everything is pure functions over immutable values. The Redis store is a value,
`Store(queues, lists)`, passed in and returned. The connector is a value too,
and so is the log of calls to its error handler. Each enqueue reads the clock
twice: the queue reads `created_at` and the connector reads `enqueued_at`. It
also reads 12 random bytes. These three readings are the parameter `Env`.
Instants are integers in microseconds. A payload stores them as exact real
epoch seconds.

The code leaves three points open; the model settles them as follows:

- The connector applies the `queue:{}` template to the name it is given, and
  it registers that same name. The model therefore has the dispatcher pass the
  queue's short name (`get_name()`); passing a full name would prefix it twice.
- A prefixed namespace extends an inherited base naming. The base naming is a
  parameter here, because the class it inherits from is not defined anywhere
  (`namespaces.py` imports `QueueNamespace` from `connector.py`, which has no
  such class).
- The dispatcher's namespace is not applied to any write. It is only passed
  along, as the extra fourth argument of the call in Findings. The write key is
  `queue:<short name>`, whatever namespace the queue has.

## Model

| member | source | states |
|---|---|---|
| Types.TimestampFaithful | src/pykiq/sidekiq.py:141-147 | stored timestamps are injective in the instant, and the seconds of `now + delay` are the seconds of `now` plus those of the delay |
| Protocol.QueueKey | src/pykiq/protocol.py:32 | the list key of queue `n` is the prefix `queue:` followed by `n` and nothing else |
| Protocol.FieldsDistinct | src/pykiq/protocol.py:23-29 | the seven payload field names are pairwise distinct |
| Protocol.QueueKeyInjective | src/pykiq/protocol.py:32 | two queue names share a list key if and only if they are equal |
| Protocol.RegistryIsNoQueueKey | src/pykiq/protocol.py:31-32 | the registry key `queues` is never the list key of any queue |
| Protocol.LateFieldsAreFresh | src/pykiq/protocol.py:23-29 | `jid` and `enqueued_at` are distinct from each other and from the five fields a queue writes |
| Protocol.QueueKeyExample | src/pykiq/protocol.py:32 | queue `low` is stored under `queue:low` |
| Namespaces.EmptyName | src/pykiq/namespaces.py:30-31 | the empty namespace returns the queue name unchanged |
| Namespaces.PrefixedName | src/pykiq/namespaces.py:46-57 | a prefixed name is the prefix, a colon, then the base naming; its length is the sum of theirs plus one |
| Namespaces.StripPrefix | src/pykiq/namespaces.py:55-57 | the inverse of prefixing: defined exactly on names that start with prefix and colon, and putting them back gives the name |
| Namespaces.StripRecoversBase | src/pykiq/namespaces.py:55-57 | stripping the prefix from a prefixed name recovers the base naming (round trip) |
| Namespaces.PrefixedInjective | src/pykiq/namespaces.py:55-57 | with a fixed prefix, an injective base naming gives an injective prefixed naming |
| Namespaces.PrefixedExample | src/pykiq/namespaces.py:55-57 | prefix `app` over the default template names queue `low` as `app:queue:low` |
| Connectors.New | src/pykiq/connector.py:161-165 | a new connector is disconnected, has no handle and has notified nothing |
| Connectors.Toggled | src/pykiq/connector.py:75-78 | toggling flips the connected flag and changes nothing else |
| Connectors.Connect | src/pykiq/connector.py:180-186 | connecting succeeds exactly when disconnected and opens a handle for the configuration; otherwise it raises "Already connected" and changes nothing |
| Connectors.ReuseConnection | src/pykiq/connector.py:188-202 | adopting succeeds exactly when disconnected and keeps the given handle; otherwise it raises "Already connected" and changes nothing |
| Connectors.Disconnect | src/pykiq/connector.py:204-209 | disconnecting succeeds exactly when connected and drops the handle; otherwise it raises "Not connected" and changes nothing |
| Connectors.FromExistingConnection | src/pykiq/connector.py:167-178 | a connector built from an existing connection is connected, with that handle and the default configuration |
| Connectors.Stamped | src/pykiq/connector.py:219-222 | the stored record is the caller's map with only the timestamp key set to `now` |
| Connectors.PushToQueue | src/pykiq/connector.py:211-228 | the push raises "Not connected" and leaves the store untouched if and only if the flag is false or the handle absent; otherwise it returns `now`, registers the name and prepends exactly the stamped record to that queue's list, and leaves every other list as it was |
| Connectors.PushKeepsKnownRegistry | src/pykiq/connector.py:225 | pushing to a queue already registered leaves the registry unchanged |
| Connectors.Enter | src/pykiq/connector.py:100-114 | entering a `with` block on a disconnected connector yields the connector, connected through a new handle for its own configuration; on a connected one it notifies the handler once and yields nothing |
| Connectors.Exit | src/pykiq/connector.py:116-134 | leaving a `with` block always disconnects, notifies the handler exactly when an exception is in flight, and always suppresses it |
| Connectors.ValidPreserved | src/pykiq/connector.py:180-209 | every state change keeps the invariant that a disconnected connector holds no handle |
| Connectors.ScopedRoundTrip | src/pykiq/connector.py:100-134 | a `with` block on a disconnected connector leaves it disconnected, without a handle and in the valid state, with one notice exactly when the block raised |
| Jobs.NewJob | src/pykiq/job.py:41-59 | a job's class name is exactly the name it was built with, and its queue is the given queue |
| Jobs.Klass | src/pykiq/job.py:52-59 | `klass` is the class name the job was built with: the job is exactly its queue plus that name |
| Jobs.Retry | src/pykiq/job.py:61-68 | a plain job is always retried |
| Jobs.StrForm | src/pykiq/job.py:88-90 | `str` of a string is that string; other values use Python's own formatting |
| Jobs.ExtractJid | src/pykiq/job.py:88-92 | the job id is present if and only if the payload has `jid`, and then it is the string form of that field |
| Jobs.PerformIn | src/pykiq/job.py:78-92 | scheduling leaves the state the queue's enqueue leaves; it raises exactly when the enqueue raises, and with the enqueue's own exception; otherwise the id is the one extracted from the payload the enqueue returned |
| Jobs.PerformAsync | src/pykiq/job.py:70-76 | scheduling now is scheduling after a zero delay, and leaves the state the zero-delay enqueue leaves |
| Jobs.PerformAsyncCallsWithZeroDelay | src/pykiq/job.py:70-76 | scheduling now calls the job's queue exactly once, with a zero delay and the arguments unchanged and in order |
| Jobs.PerformInCallsEnqueueOnce | src/pykiq/job.py:78-92 | scheduling calls the queue once, with the job, the delay and the arguments unchanged and in order; the id is the answer's `jid`, or nothing if it has none |
| Sidekiq.Hex | src/pykiq/sidekiq.py:86-95 | the hexadecimal text of n bytes has 2n characters, all lower-case hexadecimal digits |
| Sidekiq.Unhex | src/pykiq/sidekiq.py:86-95 | a decoded text is twice as long as the bytes it decodes to |
| Sidekiq.UnhexHex | src/pykiq/sidekiq.py:86-95 | decoding the hexadecimal text of some bytes gives the bytes back |
| Sidekiq.HexUnhex | src/pykiq/sidekiq.py:86-95 | every decodable text is the hexadecimal text of what it decodes to |
| Sidekiq.GenerateJid | src/pykiq/sidekiq.py:86-95 | a job id is 24 lower-case hexadecimal digits that decode to the 12 random bytes |
| Sidekiq.JidInjective | src/pykiq/sidekiq.py:86-95 | two job ids are equal if and only if their random bytes are |
| Sidekiq.NewQueue | src/pykiq/sidekiq.py:116-128 | a queue keeps its name and dispatcher; with no namespace, or an explicit default one, it uses the default template; with a resolver it uses that resolver |
| Sidekiq.GetName | src/pykiq/sidekiq.py:155-156 | `get_name` returns the name the queue was built with |
| Sidekiq.GetFullName | src/pykiq/sidekiq.py:158-159 | the full name is `queue:` plus the queue's name under the default namespace, and the resolver's result for the queue's name otherwise |
| Sidekiq.SameNameSameFullName | src/pykiq/sidekiq.py:97-110 | with the default namespace, two queues share a full name if and only if they were built with the same name, whatever their dispatchers |
| Sidekiq.DefaultNamespaceWritesToFullName | src/pykiq/sidekiq.py:97-110 | under the default namespace, the list the connector writes is the queue's full name |
| Sidekiq.InvokeConnectorPush | src/pykiq/connector.py:211-213 | a call with other than three arguments raises a TypeError and does not run; a well-formed call is the connector's push |
| Sidekiq.PushToQueueAsWritten | src/pykiq/sidekiq.py:75-84 | no contract of its own: the dispatcher's push as written, with four arguments to the connector; its behaviour is stated by `Sidekiq.AsWrittenPushAlwaysRaises` (see Findings) |
| Sidekiq.AsWrittenPushAlwaysRaises | src/pykiq/sidekiq.py:79-81 | as written, every push raises a TypeError and leaves connector and store unchanged |
| Sidekiq.PushToQueue | src/pykiq/sidekiq.py:60-84 | the push raises exactly when the connector cannot push, leaving everything unchanged; otherwise it returns the generated id and the caller's map plus `jid` and `enqueued_at`, all else unchanged, and that map is the entry pushed once onto the queue's list |
| Sidekiq.BuildPayload | src/pykiq/sidekiq.py:141-148 | the built payload has exactly the five queue fields: class, args in order, short name, `created_at` = now, and `at` = `created_at` plus the delay |
| Sidekiq.Enqueue | src/pykiq/sidekiq.py:130-153 | enqueuing returns the seven-field payload, with `jid` the generated id and all five queue fields kept, and that payload is the new head of the queue's list; on a connector that cannot push it raises and changes nothing |
| Pipeline.ScheduleInEndToEnd | src/pykiq/job.py:78-92 | scheduling through a connector that can push returns the generated id and adds exactly one entry, the job's payload, to its queue; otherwise it raises "Not connected" and changes nothing |
| Pipeline.ScheduleNowIsZeroDelay | src/pykiq/job.py:70-76 | scheduling now equals scheduling after zero delay, and the entry's `at` equals its `created_at` |
| Pipeline.TwoSchedulesTwoEntries | src/pykiq/sidekiq.py:150-153 | two schedules of the same job on a pushable connection both succeed and add exactly two entries in front of the old list, the second schedule's payload at the head and the first's behind it; with the same readings the two entries are equal and both stay (nothing is deduplicated); with different random bytes the ids differ |
| Pipeline.SayHelloScenario | src/pykiq/sidekiq.py:141-153 | `SayHello` on queue `low` with "Hello" one minute ahead registers `low`, writes one entry to `queue:low` with exactly the seven fields `class`, `queue`, `args`, `at`, `created_at`, `enqueued_at`, `jid`, `at` 60 seconds after `created_at`, and a `jid` of 24 hex digits equal to the returned id |
| Pipeline.ScheduleScoped | src/pykiq/connector.py:100-134 | scheduling inside a `with` block ends disconnected, in the valid state, with any exception suppressed; it yields a job id exactly when the connector was disconnected or held a handle, and otherwise leaves the store unchanged |
| Pipeline.ScopedScheduleEndsDisconnected | src/pykiq/connector.py:100-134 | scheduling inside a `with` block always ends disconnected with the exception suppressed; from disconnected it enqueues with nothing notified, and from connected with a handle it still enqueues after one notice; it always ends in the valid state |

## Left out

- Redis I/O (`Redis(...)`, `sadd`, `lpush`) is replaced by the `Store` value, with set-add and prepend semantics. Host, port and database only label the handle.
- JSON serialisation of the entry is left out: the list holds the payload map itself.
- Sidekiq.Enqueue: instants are unbounded integers, so the model has no range bound on `datetime`. In Python, `now + delay` (sidekiq.py:142) raises `OverflowError` when the delay takes the result out of range, for instance with `timedelta(days=999999999)`. `timestamp()` (sidekiq.py:145, 147) can fail the same way near the ends of the range. In both cases nothing is written. The model instead builds the payload, writes the entry and returns an id.
- The wall clock and random source are inputs (`Env`). Floating-point rounding of `timestamp()` is not modelled; timestamps are exact reals. So are local-time effects of naive `datetime` arithmetic.
- Uniqueness of job ids across calls is probabilistic. The model proves only that distinct random bytes give distinct ids.
- The error handlers (null, stderr, logging) are I/O. Each call to the handler is one entry in the connector's `notices` log, whichever handler is installed.
- The abstract `Connector` methods and `base.py` carry no behaviour. Only the Redis connector's concrete behaviour is modelled.
- `Connect` fails only with "Already connected", because the Redis client's constructor does not open a connection.
- The two backend writes (`sadd`, then `lpush`) happen in one step. There is no crash or concurrency model, so the lack of atomicity between them is not represented.
- The dispatcher's constructor and its stored namespace: the namespace is only forwarded, by the call in Findings, and no write uses it.
- Sidekiq.InvokeConnectorPush: a three-argument call whose arguments are not a name, a map and a key is modelled as a TypeError. Python would bind it and fail later. The corrected and as-written calls never produce such a call.
- Sidekiq.AsWrittenPushAlwaysRaises: the TypeError text is the one Python 3.7 to 3.9 produce. From 3.10 Python prefixes the class name ("RedisConnector.push_to_queue() takes …"); the package accepts any Python 3 from 3.7.
- Jobs.StrForm: Python's formatting of non-string values is a parameter (`repr`) rather than a definition. Pipeline ids are always strings, so the results do not depend on it.
- `example/my_kiq.py`, `setup.py`, `__init__.py` and `tests/conftest.py` are a demo and packaging.

## Findings

| source | as written | input that shows it | evidently intended | confidence | as-written member | corrected member |
|---|---|---|---|---|---|---|
| src/pykiq/sidekiq.py:79-81 | `Sidekiq.push_to_queue` calls the connector's `push_to_queue` with four arguments: the queue object, the map, the timestamp key and the dispatcher's namespace. The connector's method takes three (connector.py:211-213). | any call, e.g. scheduling `SayHello` on queue `low`: raises `TypeError`, nothing is written | pass the queue's short name (`get_name()`), the map and `enqueued_at`; the connector applies the `queue:` template itself | high (not executed) | Sidekiq.PushToQueueAsWritten (shown by Sidekiq.AsWrittenPushAlwaysRaises) | Sidekiq.PushToQueue |

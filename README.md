# busride-fun bus drivers, in Dafny

This project models the bus driver layer of busride-fun. That layer gives every node of the
message mesh one `send(messages)` / `receive(stream)` contract. It has five implementations,
each over a different backend:

- a dummy driver that does nothing;
- Redis streams (XADD, XREAD from offset 0, XDEL of everything read);
- Kafka topics (a lazily built producer and consumer, per-record commits);
- NATS subjects (publish, then a pull loop on one subscription);
- a Postgres table that is polled (atomic insert, then select-and-mark-read in one transaction).

The drivers register themselves under a name in `BusDriverFactory`, and `get_bus_driver(name)`
builds the named one. The `send` and `receive` of the Redis, Kafka, NATS and Postgres drivers,
and NATS `_subscribe`, run under a fail-soft wrapper: an exception from the backend becomes the
fallback `None`. The other operations are not wrapped: the dummy driver's, `start`, `stop`, NATS
`_connect`, Kafka `consumer_subscribe`, and the Kafka `producer` and `consumer` properties. Their errors reach the caller.

Layout, one module per source file:

- `wrappers.dfy`: `Option` and `Result`.
- `envelope.dfy`: the `BusMessage` record and the `str()` formatting the drivers use to build names.
- `helpers.dfy`: `async_try_ignore` and `rndstr`.
- `bus.dfy`: `BusDriver` and `BusDriverFactory`.
- `bus_package.dfy`: `get_bus_driver`.
- `dummy.dfy`, `redis.dfy`, `kafka.dfy`, `nats.dfy`, `pg_table.dfy`: the drivers.

How the backends are modelled:

- Each backend's server side is state held in the driver object:
  - Redis: a map of streams plus the last entry id handed out.
  - Kafka: the producer's records and flush count, and the consumer's subscriptions and commits.
  - NATS: the publications and the subscribe calls.
  - Postgres: the table rows plus the SERIAL counter.
- The methods update that state in place.
- What the backend does on its own is a parameter of the operation: which client call raises, what
  a `consume` or `next_msg` returns, whether the deadline has passed, and which rows other writers insert.
- A specification function of the old state and those parameters describes each operation.
- The lemmas state the drivers' promises about those functions: order, addressing, bounds,
  deletion, no redelivery, and the fallbacks.

## Model

| member | source | states |
|---|---|---|
| Bus.BusDriver.constructor | service/service/bus/bus.py:5-6 | the base driver keeps the name it is given |
| Bus.BusDriverFactory.constructor | service/service/bus/bus.py:17-19 | the registry starts empty |
| Bus.BusDriverFactory.Register | service/service/bus/bus.py:21-23 | the registry maps `name` to the class afterwards, overwriting an earlier entry; every other name keeps its entry or its absence |
| Bus.CreateFrom | service/service/bus/bus.py:25-29 | create fails exactly when the name is not registered, with ValueError "Bus driver '<name>' not registered."; otherwise it builds the registered class from the arguments unchanged |
| Bus.BusDriverFactory.Create | service/service/bus/bus.py:25-29 | the same outcome over the factory's own registry |
| Bus.CreateAfterRegister | service/service/bus/bus.py:21-29 | after register(n, c), create(n, args) succeeds with an instance of c |
| Bus.LastRegistrationWins | service/service/bus/bus.py:21-23 | registering a name twice: create returns the second class |
| Bus.RegisterKeepsOthers | service/service/bus/bus.py:21-29 | registering one name leaves create's outcome for every other name unchanged |
| BusPackage.GetBusDriver | service/service/bus/__init__.py:4-5 | get_bus_driver is exactly factory create: ValueError for an unknown name, otherwise an instance of the registered class |
| Helpers.TryIgnore | service/service/helpers.py:9-25 | the wrapped call never raises; it returns func's value when func returns; when func raises, it returns fbcall's value if there is a fbcall that returns, and fb otherwise |
| Helpers.RndStr | service/service/helpers.py:32-34 | rndstr(length) has exactly `length` characters (none for length <= 0), each one of the 52 ASCII letters |
| Helpers.LettersAreAsciiLetters | service/service/helpers.py:33 | the letters string holds exactly the 52 ASCII letters |
| Dummy.DummyBusDriver.Send | service/service/bus/dummy.py:14-15 | send does nothing and returns None |
| Dummy.DummyBusDriver.Receive | service/service/bus/dummy.py:17-18 | receive returns the empty list for any stream |
| Dummy.ConstructIgnoresArgs | service/service/bus/dummy.py:11-12 | the driver is built from any arguments and keeps none of them: every construction gives the same driver, which sends nothing and receives [] |
| Dummy.Load | service/service/bus/dummy.py:21 | loading the module registers DummyBusDriver under "dummy" and changes no other entry |
| RedisBus.RedisBusDriver.constructor | service/service/bus/redis.py:15-23 | the client is bound to host, port and db; the server starts with no streams |
| RedisBus.Sent | service/service/bus/redis.py:25-29 | send gets through exactly the messages before the first xadd that raises (an injected error, a message without rcpt, or a message with empty data, which the client refuses); every one of them has a recipient |
| RedisBus.RedisBusDriver.Send | service/service/bus/redis.py:25-29 | the server's streams become those messages xadd-ed in order, with fresh increasing ids; the id order of every stream is kept |
| RedisBus.SendAppendsInOrder | service/service/bus/redis.py:27-29 | after send, each stream's entries are its old entries followed by the data of the sent messages addressed to it, in input order |
| RedisBus.SendLeavesOthers | service/service/bus/redis.py:27-29 | a stream that no sent message names is left exactly as it was |
| RedisBus.XaddKeepsStreamsOk | service/service/bus/redis.py:29 | one xadd keeps ids growing along every stream, bounded by the last id handed out |
| RedisBus.Head | service/service/bus/redis.py:39 | xread with COUNT returns the first `count` entries of the stream, or all of them when there are fewer |
| RedisBus.ReceiveSpec | service/service/bus/redis.py:31-51 | receive touches only the named stream, and only by deleting entries at its head; when it returns messages, it returns as many as it deleted |
| RedisBus.RedisBusDriver.Receive | service/service/bus/redis.py:31-51 | the result and the new server state are the xread-then-xdel outcome, including the fallback None when a call raises |
| RedisBus.ReceiveReadsHead | service/service/bus/redis.py:39-47 | a successful receive returns at most `count` messages: all of the stream's entries when it has no more, exactly `count` when it has more; the stream's first entries in order, with msg_id the entry id and data its fields |
| RedisBus.ReceiveDeletesWhatItReturns | service/service/bus/redis.py:39-49 | a successful receive deletes exactly the entries it returned from that stream; every other stream is untouched |
| RedisBus.ReceiveFaultFallsBack | service/service/bus/redis.py:31-49 | when a call raises, receive returns None: a failing xread changes nothing; when the xdel of the k-th entry read fails, exactly the k-1 entries before it are gone; no other stream is touched |
| RedisBus.ReceiveEmpty | service/service/bus/redis.py:39-51 | with a positive block time, an empty or missing stream reads as the empty list and changes nothing |
| RedisBus.DroppedOk | service/service/bus/redis.py:49 | deleting entries at the head of a stream keeps every stream's id order |
| RedisBus.DeleteFirst | service/service/bus/redis.py:49 | in a stream with growing ids, XDEL of the first entry's id removes exactly that entry |
| RedisBus.Load | service/service/bus/redis.py:54 | loading the module registers RedisBusDriver under "redis" |
| KafkaBus.KafkaBusDriver.constructor | service/service/bus/kafka.py:19-30 | servers and group id are kept; there is no producer, no consumer and no subscription yet |
| KafkaBus.KafkaBusDriver.GetProducer | service/service/bus/kafka.py:32-43 | as intended (see Findings): the producer is built on first use, with client.id "bus-driver", linger.ms 5 and acks "0"; every later access returns the same producer |
| KafkaBus.ProducerOnceKeeps | service/service/bus/kafka.py:32-43 | as intended: once built, the producer is kept at every later access, with all the records and flushes it was handed |
| KafkaBus.ProducerAsWritten | service/service/bus/kafka.py:34-43 | as written: a producer with queued records is kept; a missing producer, or one whose queue is empty, is replaced by a new one |
| KafkaBus.FlushedProducerReplacedAsWritten | service/service/bus/kafka.py:34-43 | as written, after send([m]) has flushed, the next access builds a new producer, which holds neither m's record nor the flush; as intended, the first producer is kept |
| KafkaBus.KafkaBusDriver.GetConsumer | service/service/bus/kafka.py:45-58 | the consumer is built once, with the group id, offset reset "earliest", partition EOF off and auto commit off; later calls return the same consumer |
| KafkaBus.FirstEscape | service/service/bus/kafka.py:62-73 | the first message whose produce raises something other than a KafkaException; no earlier one does |
| KafkaBus.KafkaBusDriver.Send | service/service/bus/kafka.py:60-74 | through the intended build-once producer (GetProducer; as written, a send after a flushed one goes through a new producer, see Findings), the producer gains one record per message before the escape whose produce succeeded: topic "t." + str(rcpt), value its data, key its msg_id, in order; it flushes once when nothing escaped, and not at all otherwise; the queue of pending records grows by each record produced and the flush empties it |
| KafkaBus.TopicMatchesSubscription | service/service/bus/kafka.py:64 | a message goes to the topic that a receiver of stream `name` subscribes to ("t." + name) exactly when str(rcpt) is `name` |
| KafkaBus.KeptAllWhenDelivered | service/service/bus/kafka.py:62-71 | when every produce succeeds, send produces every message, in order |
| KafkaBus.KafkaErrorSkipsOnlyThatMessage | service/service/bus/kafka.py:65-73 | a KafkaException loses only that message; the others are still produced, in order |
| KafkaBus.KeptAreGiven | service/service/bus/kafka.py:62-71 | every message send produces is one of the messages it was given |
| KafkaBus.KafkaBusDriver.ConsumerSubscribe | service/service/bus/kafka.py:108-112 | the consumer is built, and the subscribe call to "t." + name is made only when that is not already the topic; it reports success exactly when no call was needed or the call did not raise; a raising call leaves the cached topic and the subscriptions as they were |
| KafkaBus.AcceptedFrom | service/service/bus/kafka.py:92-97 | the records the loop accepts are present in the batch and carry no error; None entries and error records are skipped |
| KafkaBus.AcceptedFromComplete | service/service/bus/kafka.py:92-97 | every present, error-free record of the batch is accepted |
| KafkaBus.AcceptedFromSplit | service/service/bus/kafka.py:92-97 | accepted records keep batch order: those from earlier positions come before those from later ones |
| KafkaBus.KafkaBusDriver.Receive | service/service/bus/kafka.py:76-106 | receive subscribes, and a subscribe that raises gives the fallback None with nothing consumed; otherwise a consume that raises a KafkaException returns []; otherwise the result and the new commits are those of the batch scan, and an undecodable value gives the fallback None |
| KafkaBus.ScanCollectsAcceptedPrefix | service/service/bus/kafka.py:88-106 | receive returns a prefix of the accepted records, in consume order, and commits each one, except a last one whose commit raised |
| KafkaBus.ScanEscapesIff | service/service/bus/kafka.py:88-106 | an exception escapes receive's loop exactly when, in consume order, an undecodable accepted record comes before any whose commit raised |
| KafkaBus.ScanCollectsAllWhenClean | service/service/bus/kafka.py:92-102 | when every accepted record decodes and commits, receive returns and commits all of them, in consume order |
| KafkaBus.Load | service/service/bus/kafka.py:115 | loading the module registers KafkaBusDriver under "kafka" |
| NatsBus.NatsBusDriver.constructor | service/service/bus/nats.py:21-31 | the servers URL is "nats://host:port"; there is no connection and no subscription |
| NatsBus.NatsBusDriver.Connect | service/service/bus/nats.py:43-45 | _connect reports whether a connection is up afterwards: an open one is kept; a missing or closed one is replaced when the server is reachable; otherwise the error reaches the caller and the connection stays as it was |
| NatsBus.NatsBusDriver.Start | service/service/bus/nats.py:33-34 | start connects, with the same outcome as _connect, and the error of an unreachable server reaches its caller |
| NatsBus.NatsBusDriver.ConnectionClosed | service/service/bus/nats.py:37 | the connection the driver holds turns closed (`nc.is_closed`) |
| NatsBus.NatsBusDriver.Stop | service/service/bus/nats.py:36-41 | an open connection is closed and forgotten; a closed one stays; the subscription is always forgotten |
| NatsBus.NatsBusDriver.Send | service/service/bus/nats.py:47-55 | without an open connection nothing is published; otherwise the server receives, in order, one publication per message before the first publish that raises, and one per message when none raises: subject "s" + str(rcpt), payload its data |
| NatsBus.SubjectMatchesSubscription | service/service/bus/nats.py:51 | a message is published on the subject that a receiver of stream `name` subscribes to ("s" + name) exactly when str(rcpt) is `name` |
| NatsBus.NatsBusDriver.Subscribe | service/service/bus/nats.py:57-63 | the subscription is to "s" + name, made only when not already subscribed to it; it yields None when the subscribe raises |
| NatsBus.NatsBusDriver.Receive | service/service/bus/nats.py:65-96 | receive subscribes, then returns the pull loop's messages over the given pulls; afterwards the cached subscription is to "s" + name when the subscribe succeeded, and unchanged otherwise |
| NatsBus.PullLoop | service/service/bus/nats.py:80-94 | the loop only appends to the messages gathered so far, at most one per pull |
| NatsBus.PullLoopBounded | service/service/bus/nats.py:80-94 | receive returns at most `count` messages (one when count is below one) |
| NatsBus.PullLoopAddressed | service/service/bus/nats.py:82-86 | every received message has rcpt the stream name and no sender, and is the decoded payload of one of the pulls, with that pull's sid as msg_id |
| NatsBus.PullLoopUntilTimeout | service/service/bus/nats.py:80-94 | up to the pull that times out, when no deadline passes and fewer than `count` messages are gathered in all, receive returns every decodable message pulled, in order; failed pulls and bad JSON are skipped |
| NatsBus.PullLoopStopsAt | service/service/bus/nats.py:80-94 | when the loop stops at a pull because the deadline passed or `count` was reached, with no stop before it, receive returns every decodable message pulled up to that one, in order |
| NatsBus.PullLoopPrefix | service/service/bus/nats.py:80-94 | whatever stops it, receive returns a prefix of all the decodable messages pulled, in order |
| NatsBus.PullLoopNothingWhenNotLive | service/service/bus/nats.py:77-90 | without a subscription every pull raises, so the loop gathers nothing more |
| NatsBus.Load | service/service/bus/nats.py:99 | loading the module registers NatsBusDriver under "nats" |
| PgTableBus.PostgresTablePollBusDriver.constructor | service/service/bus/pg_table.py:22-35 | the DSN is built from user, password, host, port and db; the table name is kept; there is no connection |
| PgTableBus.PostgresTablePollBusDriver.Start | service/service/bus/pg_table.py:37-51 | start connects; an unreachable server raises and leaves the connection as it was |
| PgTableBus.PostgresTablePollBusDriver.Stop | service/service/bus/pg_table.py:53-56 | stop closes and forgets the connection, and the table is unchanged |
| PgTableBus.NewRows | service/service/bus/pg_table.py:73-80 | the insert appends one unread row per message, with the next serial ids, in order |
| PgTableBus.PostgresTablePollBusDriver.Send | service/service/bus/pg_table.py:58-80 | send connects if needed, then inserts all rows in one statement or none: a failed connect, a failed insert, or a rcpt or sender that VARCHAR(32) cannot hold inserts nothing |
| PgTableBus.Stored | service/service/bus/pg_table.py:43-44 | a VARCHAR(32) column keeps a value of at most 32 characters as it is, cuts a longer one to 32 when only spaces are cut, and otherwise leaves it too long to store |
| PgTableBus.FitsExactly | service/service/bus/pg_table.py:62-80 | the insert goes through exactly when every rcpt and sender is absent, at most 32 characters, or longer by spaces only |
| PgTableBus.InsertedRow | service/service/bus/pg_table.py:62-80 | the i-th row send inserts has the next serial id plus i, is unread and holds the message's data; its rcpt and sender are NULL exactly when the message's are absent or empty; otherwise they are what the column stores: the value itself when it has at most 32 characters, cut to 32 when the rest is spaces |
| PgTableBus.SentThenFetched | service/service/bus/pg_table.py:131-137 | a message sent and fetched back has the data it was sent with and that data's "id" as msg_id; rcpt and sender come back as stored: None for an absent or empty one, cut to 32 characters when the column cut them; so a message with no empty rcpt or sender, none over 32 characters, and whose msg_id is its data's id comes back unchanged |
| PgTableBus.InsertKeepsKeys | service/service/bus/pg_table.py:73-80 | an insert keeps primary keys unique and increasing in table order |
| PgTableBus.PostgresTablePollBusDriver.Arrive | service/service/bus/pg_table.py:107-109 | while receive sleeps, other writers' rows are appended with fresh serial ids |
| PgTableBus.Unread | service/service/bus/pg_table.py:120-130 | the rows the WHERE clause matches are rows of the table, addressed to the stream and unread |
| PgTableBus.UnreadComplete | service/service/bus/pg_table.py:120-130 | every unread row addressed to the stream is matched |
| PgTableBus.SelectMeetsQuery | service/service/bus/pg_table.py:120-130 | the select returns the first unread rows addressed to the stream, in table order, at most `limit` of them; when it returns fewer than `limit`, it returns every such row |
| PgTableBus.PostgresTablePollBusDriver.FetchUnread | service/service/bus/pg_table.py:113-137 | the fetch appends the selected rows' ids and messages to the two lists, in lockstep; it raises without a connection or with a negative limit |
| PgTableBus.MarkRead | service/service/bus/pg_table.py:139-149 | exactly the rows whose id is listed become read; nothing else changes |
| PgTableBus.PostgresTablePollBusDriver.MarkAsRead | service/service/bus/pg_table.py:139-149 | an empty id list changes nothing; otherwise the table becomes MarkRead of the ids |
| PgTableBus.MarkReadKeepsKeys | service/service/bus/pg_table.py:139-149 | marking rows read keeps the primary keys as they were |
| PgTableBus.NoRedelivery | service/service/bus/pg_table.py:100-102 | once a poll has marked its rows read, no later select, for any stream or limit, returns any of them |
| PgTableBus.PostgresTablePollBusDriver.PollOnce | service/service/bus/pg_table.py:100-102 | one transaction returns the selected rows' messages and marks exactly those rows read; a negative limit raises and changes nothing |
| PgTableBus.PollLoopFound | service/service/bus/pg_table.py:104-106 | the first poll that finds rows ends receive with their messages |
| PgTableBus.PostgresTablePollBusDriver.Receive | service/service/bus/pg_table.py:82-111 | receive connects if needed, then its result and the new table are those of the poll loop; afterwards there is a connection exactly when there was one or the server was reachable; a failed connect gives None and changes nothing; a negative limit gives None with the table unchanged |
| PgTableBus.PollLoopBounded | service/service/bus/pg_table.py:98-111 | receive returns at most `limit` messages, all addressed to the stream |
| PgTableBus.PollLoopKeepsRows | service/service/bus/pg_table.py:98-111 | receive only appends rows and sets read flags: the serial counter never goes back, every existing row keeps its id, addressee, sender and data, and a row once read stays read |
| PgTableBus.PollLoopNothingUnread | service/service/bus/pg_table.py:98-111 | with nothing unread for the stream and no other writer addressing it, receive polls until the deadline and returns nothing |
| PgTableBus.PollLoopNothingChanged | service/service/bus/pg_table.py:98-111 | a receive that returns nothing leaves every existing row as it was; only other writers' rows are added |
| PgTableBus.Load | service/service/bus/pg_table.py:152 | loading the module registers PostgresTablePollBusDriver under "pg_table" |

## Left out

- `asleeq` (helpers.py:28-29) sleeps for a random time. Sleeping has no effect in this model.
- Async scheduling, wall-clock time and float timeouts are abstract:
  - NATS: each loop turn carries a "late" flag, and the end of the given steps stands for the deadline.
  - Postgres: the deadline is a number of polls, one more than the given batches of arrivals.
- RedisBus.ReceiveEmpty, RedisBus.ReceiveSpec: `block == 0` means XREAD waits until an entry arrives, with no time limit. On an empty stream such a receive does not return while nothing is added, and entries added during the wait are not modelled. So ReceiveEmpty is stated for a positive block only, and ReceiveSpec reads the stream as it is.
- The durations passed to xread `block`, Kafka `consume` and NATS `next_msg` are not modelled, and neither is the Kafka `count`.
- JSON and UTF-8 encoding are not modelled. A payload is a string-to-string map and encodes perfectly.
  A received payload either decodes (`Json`) or does not (`Garbled`).
- The real client libraries (redis-py, confluent-kafka, nats-py, asyncpg) are replaced by in-memory models of the server state they change.
  Their failures are injected through parameters.
- Kafka's checks on the key type (an unsupported key type raises TypeError) are folded into the "other exception" outcome of a produce.
- Logging is not modelled; service.py, `__main__.py` and logger.py are not part of this model.
- `try_except` (redis.py) and `try_ignore` (kafka.py) are imported from helpers but not defined in helpers.py. They are modelled like `async_try_ignore` with fallback `None`.
- `BusMessage` is imported from bus.py by the drivers but is not defined there. It is modelled as a record of data, msg_id, rcpt and sender, where msg_id, rcpt and sender are optional.
- NATS: each pulled message carries its own `sid` in the model. In nats-py, `msg.sid` is the id of the one subscription, the same for every message of a receive; the model does not tie the two together.
- Redis ids are single increasing integers rather than "ms-seq" strings.
- Postgres:
  - The CREATE TABLE / CREATE INDEX statements and the `created_at` timestamp are not modelled.
  - `FOR UPDATE SKIP LOCKED` is not modelled: there is no concurrent reader.
  - The rows a `LIMIT` without `ORDER BY` returns are taken in table order.
  - A failed insert does not advance the SERIAL counter (PostgreSQL would burn ids).
- NatsBus.ServersUrl, PgTableBus.Dsn: these connection strings are stated only by their definitions, with no further contract.
- The constant `STREAM_NAME` (nats.py:18) is declared but never used by the driver.

## Findings

| source | as written | input that shows it | evidently intended | confidence | as-written member | corrected member |
|---|---|---|---|---|---|---|
| service/service/bus/kafka.py:34 | `if not self._producer` builds a new producer whenever the current one is falsy; a confluent-kafka producer's truth value is its queue length, so a producer that has flushed is replaced | two consecutive `send([m])` calls: the first flushes, so the second builds a new client and abandons the first | build the producer once and keep it (`is None`) | not executed | KafkaBus.FlushedProducerReplacedAsWritten | KafkaBus.ProducerOnceKeeps |

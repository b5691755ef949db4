# SeaweedFS message-queue broker: publish path

A Dafny model of the broker side of SeaweedFS's publish stream
(`weed/mq/broker/broker_grpc_pub.go`). A publisher opens a stream and sends an
Init request that names a topic partition and an ack interval. The broker finds
the partition's local instance in its registry. On a miss it activates the
partition from the topic's assignment document, but only when the document
names this broker as the partition's leader. It then accepts the session. It
appends each later data request to the partition's log, counts every request,
and enqueues an ack each time the count reaches the interval. When a receive
fails, a deferred cleanup detaches the publisher. If nothing depends on the
partition any more, the cleanup also removes it from the registry.

Modules:

- `Topic` (topic.dfy): topic, partition and assignment values; `LocalPartition`
  (publisher set, appended log, shutdown flag); `LocalTopicManager` (the
  registry, a map from (topic, partition) to instance).
- `Filer` (filer.dfy): the topic directory path and reading `topic.conf`,
  with the filer as an oracle value.
- `Messages` (messages.dfy): requests, responses, and the stream. The stream
  is a finite sequence of receive outcomes plus a log of sent responses.
- `AckBatching` (ack_batching.dfy): `BatchedAcks`, the acks enqueued after n
  requests, with its closed form and ordering lemmas.
- `BrokerPub` (broker_grpc_pub.dfy): leader-only activation as a function and
  as the source's scanning method; the `PublisherSession` class (ack counter,
  ack sequence, response queue); the broker's handshake, publish handler and
  cleanup.
- `Scenarios` (scenarios.dfy): client methods that draw conclusions from the
  contracts alone. One shows refcounted teardown with two sessions. One shows
  an unassigned partition being rejected. One shows seven requests with
  interval 3 producing acks 3 and 6.

Behaviour of the code worth noting:

- The ack sequence counts every request received after Init, not only data
  requests. Only the append to the log is conditional on a data payload
  (`broker_grpc_pub.go:130-135`).
- A handshake that fails (no Init, or activation fails) returns the result of
  sending the error response, not an error of its own
  (`broker_grpc_pub.go:65`, `:73`).
- A first receive that fails sends no response at all (`:47-49`).
- Activation calls `AddTopicPartition` without first checking for an
  existing entry (`:167`). With the registry assumed under "## Left out"
  (a map whose insert replaces), a concurrent duplicate activation would
  overwrite the earlier instance.
- The ingestion loop leaves only through `return err`, so the final
  `return nil` (`:148`) is unreachable. The handler's result on an accepted
  stream is always the failing receive's error, EOF included.

## Model

| member | source | states |
|---|---|---|
| `Topic.LocalPartition.constructor` | weed/mq/broker/broker_grpc_pub.go:166 | A freshly activated partition carries the requested partition and its assignment row, with no publishers, an empty log and no dependents |
| `Topic.LocalPartition.AddPublisher` | weed/mq/broker/broker_grpc_pub.go:77 | The session's name joins the publisher set; nothing else changes |
| `Topic.LocalPartition.RemovePublisher` | weed/mq/broker/broker_grpc_pub.go:86 | The session's name leaves the publisher set; other names stay |
| `Topic.LocalPartition.Publish` | weed/mq/broker/broker_grpc_pub.go:131 | A data payload is appended to the end of the partition's log |
| `Topic.LocalPartition.MaybeShutdown` | weed/mq/broker/broker_grpc_pub.go:87 | Reports true exactly when no publisher and no other dependent remains, and then marks the partition stopped for good |
| `Topic.LocalTopicManager.GetTopicPartition` | weed/mq/broker/broker_grpc_pub.go:58-59 | Returns the registered instance for (t, p), and null exactly when (t, p) is not registered |
| `Topic.LocalTopicManager.AddTopicPartition` | weed/mq/broker/broker_grpc_pub.go:167 | Maps (t, instance's partition) to the instance, overwriting any previous entry; other keys unchanged |
| `Topic.LocalTopicManager.RemoveTopicPartition` | weed/mq/broker/broker_grpc_pub.go:88 | Removes exactly the key (t, p); other keys unchanged |
| `Filer.TopicDir` | weed/mq/broker/broker_grpc_pub.go:181 | The topic directory is the topics root, then '/', the namespace, '/' and the name, in that order |
| `Filer.ReadTopicConfFromFiler` | weed/mq/broker/broker_grpc_pub.go:180-197 | Succeeds exactly when the filer is reachable and `<topic dir>/topic.conf` exists and decodes, returning its content. Otherwise an unreachable filer gives `FilerUnreachable`, a missing file gives `ReadConfFailed(t, p)`, and an undecodable file gives `UnmarshalFailed(t, p)` |
| `Filer.TopicDirInjective` | weed/mq/broker/broker_grpc_pub.go:181 | Two topics whose namespaces contain no '/' share a topic directory only if they are the same topic |
| `Messages.Stream.Recv` | weed/mq/broker/broker_grpc_pub.go:122-127 | Returns the next receive outcome and advances; past the end it returns EOF without advancing |
| `Messages.Stream.Send` | weed/mq/broker/broker_grpc_pub.go:65-73 | Logs the response and returns the stream's send outcome |
| `Messages.ReceivedCount` | weed/mq/broker/broker_grpc_pub.go:122-127 | The number of requests received before the first failed receive: all of them are requests, and the next entry, if any, is a failure |
| `AckBatching.BatchedAcks` | weed/mq/broker/broker_grpc_pub.go:136-142 | The responses queued after n requests: at most n of them, each a plain ack with no close request and no error |
| `AckBatching.BatchedAcksClosedForm` | weed/mq/broker/broker_grpc_pub.go:134-142 | After m requests with effective interval k, exactly floor(m/k) acks are enqueued, and the j-th carries (j+1)*k |
| `AckBatching.BatchedAcksIncreasing` | weed/mq/broker/broker_grpc_pub.go:135-142 | Enqueued ack sequences are strictly increasing |
| `AckBatching.BatchedAcksBounded` | weed/mq/broker/broker_grpc_pub.go:135-141 | Every enqueued ack sequence lies between 1 and the number of requests received |
| `AckBatching.BatchedAcksPrefix` | weed/mq/broker/broker_grpc_pub.go:142 | The response queue only grows: the acks after m requests are a prefix of the acks after any m' >= m |
| `AckBatching.EveryRequestAckedWhenUnset` | weed/mq/broker/broker_grpc_pub.go:136-142 | With an ack interval <= 0 (an unset 0 included), the i-th request enqueues an ack carrying i |
| `BrokerPub.NotSetupText` | weed/mq/broker/broker_grpc_pub.go:63 | The activation-failure text is non-empty and ends with the cause's text |
| `BrokerPub.FirstLeaderMatch` | weed/mq/broker/broker_grpc_pub.go:164-171 | Finds the first assignment whose leader is this broker and whose partition is p. It finds none exactly when no such row exists |
| `BrokerPub.Activation` | weed/mq/broker/broker_grpc_pub.go:157-177 | A config read failure is returned unchanged. Otherwise activation succeeds iff some row names this broker as leader of p, uses such a row, and reports "not assigned" when none does |
| `BrokerPub.PublisherSession.constructor` | weed/mq/broker/broker_grpc_pub.go:79-82 | A new session has counter 0, sequence 0 and an empty response queue, and keeps the Init's ack interval |
| `BrokerPub.PublisherSession.OnReceive` | weed/mq/broker/broker_grpc_pub.go:129-143 | Appends a data payload, if any, to the log. Increments the sequence for every request. Keeps the counter in [0, k), resetting it exactly when it reaches k. Enqueues an ack with the new sequence exactly on reset. The queue always equals `BatchedAcks` of the sequence |
| `BrokerPub.PublisherSession.ReceiveAll` | weed/mq/broker/broker_grpc_pub.go:122-144 | Loops until a receive fails. The sequence grows by the number of requests received. The log gains exactly their data payloads in order. The failing receive's error is returned |
| `BrokerPub.PublisherSession.Stop` | weed/mq/broker/broker_grpc_pub.go:84 | Sets the stopping flag |
| `BrokerPub.MessageQueueBroker.LoadLocalTopicPartitionFromFiler` | weed/mq/broker/broker_grpc_pub.go:151-178 | When `Activation` succeeds: registers a fresh instance built from the first leader row under (t, p), overwriting any previous entry. Otherwise: returns `Activation`'s error and leaves the registry unchanged |
| `BrokerPub.MessageQueueBroker.CleanupSession` | weed/mq/broker/broker_grpc_pub.go:83-90 | Stops the session and removes its publisher. Removes the (t, p) registry key iff the partition then shuts down; other keys untouched |
| `BrokerPub.MessageQueueBroker.Handshake` | weed/mq/broker/broker_grpc_pub.go:46-74 | Covers the five outcomes: receive error (returned, nothing sent); no Init; registry hit; activation failure; activation success. Each failure sends one error response and returns Send's result. Each success sends one empty response and returns no error. The registry changes only on a successful activation |
| `BrokerPub.MessageQueueBroker.Serve` | weed/mq/broker/broker_grpc_pub.go:76-144 | For a registered partition: the returned error is the terminal receive error. The ack sequence equals the number of requests received. The queue is `BatchedAcks` of that number. The log gains their data payloads in order. The publisher is detached. The registry key is removed iff the partition shuts down |
| `BrokerPub.MessageQueueBroker.PublishMessage` | weed/mq/broker/broker_grpc_pub.go:40-149 | Failures before acceptance leave the registry and every partition untouched. Partitions other than the served one always keep their publishers, log, stopped flag and dependents. An accepted stream returns the terminal receive error. Its ack sequence equals the number of requests after Init. Its queue is `BatchedAcks` of that number. The partition's log gains their data payloads. The publisher is detached. The registry key is removed iff the partition shuts down |

## Left out

- The outbound sender goroutine (`:91-119`) is not modelled. That covers the 1-second heartbeat ticker, the `StopPublishersCh` close broadcast, the 128-slot channel and its blocking, and the actual sending of queued responses. The channel is the session's append-only `queued` sequence. `close(respChan)` and the atomic `isStopping` flag become the session's `isStopping` field. These are concurrency and timing.
- Concurrency between streams is not modelled: the registry's atomicity, concurrent activations of one key, and partitions shared across sessions running in parallel. Each call runs alone.
- The gRPC stream is a finite sequence of receive outcomes. Receiving past its end yields EOF. Every send on a stream returns that stream's one fixed outcome.
- The filer connection, `filer.ReadInsideFiler` and JSON decoding are an oracle value. It says whether the filer is reachable and what each (directory, file) holds. `filer.TopicsDir` is not part of this model; its value is taken to be "/topics".
- `findClientAddress` and the random disambiguator in the client name (`:76`, `:200-212`) are not modelled. The client name is an opaque parameter.
- The `topic` package is not part of this model, so its behaviour is assumed. `Publish` appends to the partition's log. Publishers form a set of names. `FromPbTopic` and `FromPbPartition` are the identity. `Partition.Equals` is value equality. `MaybeShutdownLocalPartition` is assumed to return true when no publisher and no other dependent remains. Other dependents are an opaque count. The log flush and read functions are not modelled.
- The registry (`LocalTopicManager`) is also in the `topic` package and is assumed to be a map from (topic, partition) to instance. `GetTopicPartition` looks the key up by value. `AddTopicPartition` inserts under the instance's own partition and replaces any existing entry. `RemoveTopicPartition` deletes the key.
- `glog` logging is not modelled.
- BrokerPub.NotSetupText: states only that the text is non-empty and ends with the cause. The `%v` rendering of protobuf values in the Go format strings is not reproduced.
- BrokerPub.PublisherSession.OnReceive: the ack sequence is an unbounded natural. It does not model int64 wrap-around, which would take 2^63 requests on one stream.
- The Init request's ack interval is an unbounded integer rather than the wire's int32. Every int32 value, including 0 and negatives, is covered.

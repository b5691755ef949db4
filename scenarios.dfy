/**
 * Client scenarios: what a caller can conclude about the publish path from
 * the contracts alone.
 */
module Scenarios {
  import opened Wrappers
  import opened Topic
  import opened Filer
  import opened Messages
  import opened AckBatching
  import opened BrokerPub

  /** With two sessions attached, detaching one keeps the partition; detaching both removes it. */
  method TeardownIsRefcounted(t: Topic, p: Partition, a: BrokerPartitionAssignment)
  {
    var manager := new LocalTopicManager();
    var broker := new MessageQueueBroker("broker-1:17777", manager);
    var lp := new LocalPartition(p, a);
    manager.AddTopicPartition(t, lp);
    lp.AddPublisher("client-1");
    lp.AddPublisher("client-2");
    assert lp.publishers == {"client-1", "client-2"} && "client-1" != "client-2";
    var s1 := new PublisherSession(lp, 1);
    var s2 := new PublisherSession(lp, 1);
    broker.CleanupSession(s1, "client-1", t, p);
    assert lp.publishers == {"client-2"} && "client-2" in lp.publishers;
    assert (t, p) in manager.partitions && manager.partitions[(t, p)] == lp && !lp.stopped;
    broker.CleanupSession(s2, "client-2", t, p);
    assert lp.publishers == {} && lp.otherDependents == 0;
    assert (t, p) !in manager.partitions && lp.stopped;
  }

  /** A broker that does not lead the requested partition rejects the stream and activates nothing. */
  method UnassignedPartitionIsRejected()
  {
    var t := Topic("default", "orders");
    var p0 := Partition(1024, 0, 512, 0);
    var p1 := Partition(1024, 512, 1024, 0);
    var conf := TopicConf([BrokerPartitionAssignment(p0, "broker-2:17777"), BrokerPartitionAssignment(p1, "broker-1:17777")]);
    var f := Filer(true, map[(TopicDir(t), TopicConfFile) := Json(conf)]);
    assert Activation(f, "broker-1:17777", t, p0) == Failure(NotAssigned(t, p0, "broker-1:17777"));
    var manager := new LocalTopicManager();
    var broker := new MessageQueueBroker("broker-1:17777", manager);
    var stream := new Stream([Received(InitRequest(InitMessage(t, p0, 3)))], None);
    var err, session := broker.PublishMessage(stream, f, "client-1");
    assert session == null && err == None && manager.partitions == map[];
    assert stream.sent == [ErrorResponse(NotSetupText(t, NotAssigned(t, p0, "broker-1:17777")))];
  }

  /** Seven requests with an ack interval of 3 enqueue acks 3 and 6; the last session out removes the partition. */
  method AcceptedStreamIsAckedInBatches(m: DataMessage)
  {
    var t := Topic("default", "orders");
    var p0 := Partition(1024, 0, 512, 0);
    var conf := TopicConf([BrokerPartitionAssignment(p0, "broker-1:17777")]);
    var f := Filer(true, map[(TopicDir(t), TopicConfFile) := Json(conf)]);
    var manager := new LocalTopicManager();
    var broker := new MessageQueueBroker("broker-1:17777", manager);
    var d := Received(DataRequest(m));
    var incoming := [Received(InitRequest(InitMessage(t, p0, 3))), d, d, d, d, d, d, Received(EmptyRequest), RecvFailed(Canceled)];
    var stream := new Stream(incoming, None);
    var err, session := broker.PublishMessage(stream, f, "client-1");
    assert ReceivedCount(incoming, 8) == 0;
    assert ReceivedCount(incoming, 1) == 7;
    BatchedAcksClosedForm(3, 7);
    assert session != null && session.ackSequence == 7;
    assert session.queued == [AckResponse(3), AckResponse(6)];
    assert err == Some(Canceled) && stream.sent == [AcceptResponse];
    assert manager.partitions == map[];
  }
}

/**
 * Value types of the `topic` package and the two shared mutable entities the
 * publish path works with: a locally served partition and the broker's
 * registry of them. Only the behaviour the publish handler relies on is
 * modelled; the topic package's own source is not part of this model.
 */
module Topic {
  /** A broker's host:port identity, compared as a string. */
  type BrokerAddress = string

  datatype Topic = Topic(namespace: string, name: string)

  /** A shard of a topic's hash ring; compared by value. */
  datatype Partition = Partition(ringSize: int, rangeStart: int, rangeStop: int, unixTimeNs: int)

  /** One row of the assignment document: which broker leads which partition. */
  datatype BrokerPartitionAssignment = BrokerPartitionAssignment(partition: Partition, leaderBroker: BrokerAddress)

  /** The persisted topic configuration (the ConfigureTopicResponse document). */
  datatype TopicConf = TopicConf(brokerPartitionAssignments: seq<BrokerPartitionAssignment>)

  /** An opaque published record. */
  datatype DataMessage = DataMessage(key: seq<bv8>, value: seq<bv8>)

  type PartitionKey = (Topic, Partition)

  /**
   * The in-process runtime state of one partition served by this broker,
   * shared by all of its publisher sessions.
   */
  class LocalPartition {
    const partition: Partition
    /** The assignment row this instance was activated from. */
    const assignment: BrokerPartitionAssignment
    /** Names of the publisher sessions attached to this partition. */
    var publishers: set<string>
    /** Messages appended to the partition's log, in order. */
    var published: seq<DataMessage>
    /** Local dependents other than publishers (subscriber sessions), not modelled further. */
    var otherDependents: nat
    /** Set once the partition has shut itself down. */
    var stopped: bool

    constructor (p: Partition, a: BrokerPartitionAssignment)
      ensures partition == p && assignment == a
      ensures publishers == {} && published == [] && otherDependents == 0 && !stopped
    {
      partition := p;
      assignment := a;
      publishers := {};
      published := [];
      otherDependents := 0;
      stopped := false;
    }

    method AddPublisher(name: string)
      modifies this`publishers
      ensures publishers == old(publishers) + {name}
    {
      publishers := publishers + {name};
    }

    method RemovePublisher(name: string)
      modifies this`publishers
      ensures publishers == old(publishers) - {name}
    {
      publishers := publishers - {name};
    }

    /** Appends one message to the partition's log. */
    method Publish(msg: DataMessage)
      modifies this`published
      ensures published == old(published) + [msg]
    {
      published := published + [msg];
    }

    /** Nothing local depends on this partition any more. */
    predicate ShouldShutdown()
      reads this
    {
      publishers == {} && otherDependents == 0
    }

    /**
     * Shuts the partition down when nothing depends on it and reports whether
     * it did; a stopped partition stays stopped.
     */
    method MaybeShutdown() returns (shut: bool)
      modifies this`stopped
      ensures shut <==> publishers == {} && otherDependents == 0
      ensures stopped == (old(stopped) || shut)
    {
      shut := ShouldShutdown();
      if shut {
        stopped := true;
      }
    }
  }

  /** The broker-wide registry from (topic, partition) to the local instance. */
  class LocalTopicManager {
    var partitions: map<PartitionKey, LocalPartition>

    /** Every instance is registered under its own partition. */
    ghost predicate Valid()
      reads this
    {
      forall k | k in partitions :: partitions[k].partition == k.1
    }

    constructor ()
      ensures Valid() && partitions == map[]
    {
      partitions := map[];
    }

    /** Looks up the instance for (t, p); null when the partition is not active here. */
    method GetTopicPartition(t: Topic, p: Partition) returns (lp: LocalPartition?)
      ensures lp != null <==> (t, p) in partitions
      ensures lp != null ==> lp == partitions[(t, p)] && lp in partitions.Values
    {
      if (t, p) in partitions {
        lp := partitions[(t, p)];
      } else {
        lp := null;
      }
    }

    /** Registers lp under its own partition; an existing entry is overwritten. */
    method AddTopicPartition(t: Topic, lp: LocalPartition)
      requires Valid()
      modifies this
      ensures Valid()
      ensures partitions == old(partitions)[(t, lp.partition) := lp]
    {
      partitions := partitions[(t, lp.partition) := lp];
    }

    method RemoveTopicPartition(t: Topic, p: Partition)
      requires Valid()
      modifies this
      ensures Valid()
      ensures partitions == old(partitions) - {(t, p)}
    {
      partitions := partitions - {(t, p)};
    }
  }
}

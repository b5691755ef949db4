/**
 * The broker's publish path: the per-stream handler (init handshake, the
 * ingestion and ack-batching loop, the deferred cleanup) and the lazy,
 * leader-only activation of a partition from the assignment document.
 */
module BrokerPub {
  import opened Wrappers
  import opened Topic
  import opened Filer
  import opened Messages
  import opened AckBatching

  // ---------------------------------------------------------------------
  // Error reports sent to the client

  const MissingInitText: string := "missing init message"

  function LoadErrorText(e: LoadError): string
  {
    match e
    case FilerUnreachable => "filer unreachable"
    case ReadConfFailed(_, _) => "read topic conf"
    case UnmarshalFailed(_, _) => "unmarshal topic conf"
    case NotAssigned(_, _, broker) => "not assigned to broker " + broker
  }

  /** The error text for a partition that could not be activated. */
  function NotSetupText(t: Topic, cause: LoadError): (s: string)
    ensures |s| > |LoadErrorText(cause)|
    ensures s[|s| - |LoadErrorText(cause)|..] == LoadErrorText(cause)
  {
    "topic " + t.namespace + "." + t.name + " not setup: " + LoadErrorText(cause)
  }

  /** The single response a handshake failure sends. */
  function ErrorResponse(text: string): Response
  {
    Response(0, false, text)
  }

  /** The response that accepts a session: no ack sequence, no error. */
  const AcceptResponse: Response := Response(0, false, "")

  // ---------------------------------------------------------------------
  // Partition activation, as a specification

  predicate IsLeaderFor(a: BrokerPartitionAssignment, self: BrokerAddress, p: Partition)
  {
    a.leaderBroker == self && a.partition == p
  }

  /** The index of the first assignment naming `self` as leader of `p`, if any. */
  function FirstLeaderMatch(assignments: seq<BrokerPartitionAssignment>, self: BrokerAddress, p: Partition): (r: Option<nat>)
    ensures r.Some? ==> r.value < |assignments| && IsLeaderFor(assignments[r.value], self, p)
    ensures r.Some? ==> forall j | 0 <= j < r.value :: !IsLeaderFor(assignments[j], self, p)
    ensures r.None? <==> forall j | 0 <= j < |assignments| :: !IsLeaderFor(assignments[j], self, p)
  {
    if assignments == [] then None
    else if IsLeaderFor(assignments[0], self, p) then Some(0)
    else match FirstLeaderMatch(assignments[1..], self, p)
      case None => None
      case Some(i) => Some(i + 1)
  }

  /**
   * What activating (t, p) on broker `self` yields: the assignment row it is
   * activated from, or why it cannot be.
   */
  function Activation(f: Filer, self: BrokerAddress, t: Topic, p: Partition): (r: Result<BrokerPartitionAssignment, LoadError>)
    ensures ReadTopicConfFromFiler(f, t, p).Failure? ==> r == Failure(ReadTopicConfFromFiler(f, t, p).error)
    ensures ReadTopicConfFromFiler(f, t, p).Success? ==>
      var assignments := ReadTopicConfFromFiler(f, t, p).value.brokerPartitionAssignments;
      (r.Success? <==> exists i | 0 <= i < |assignments| :: IsLeaderFor(assignments[i], self, p))
      && (r.Success? ==> r.value in assignments && IsLeaderFor(r.value, self, p))
      && (r.Failure? ==> r.error == NotAssigned(t, p, self))
  {
    match ReadTopicConfFromFiler(f, t, p)
    case Failure(e) => Failure(e)
    case Success(conf) =>
      match FirstLeaderMatch(conf.brokerPartitionAssignments, self, p)
      case Some(i) => Success(conf.brokerPartitionAssignments[i])
      case None => Failure(NotAssigned(t, p, self))
  }

  // ---------------------------------------------------------------------
  // The handler's view of a stream's first receive

  function FirstReceived(incoming: seq<Received>): Received
  {
    if incoming == [] then RecvFailed(EOF) else incoming[0]
  }

  predicate HasInit(incoming: seq<Received>)
  {
    FirstReceived(incoming).Received? && FirstReceived(incoming).request.InitRequest?
  }

  // ---------------------------------------------------------------------
  // A publisher session

  /**
   * The ingestion side of one publish stream: its ack counter, its running ack
   * sequence and the responses it has enqueued for the outbound sender.
   */
  class PublisherSession {
    const partition: LocalPartition
    const ackInterval: int
    var ackCounter: int
    var ackSequence: nat
    /** Responses enqueued for the outbound sender, in order. */
    var queued: seq<Response>
    var isStopping: bool

    ghost predicate Valid()
      reads this
    {
      0 <= ackCounter < EffectiveInterval(ackInterval)
      && ackCounter == ackSequence % EffectiveInterval(ackInterval)
      && queued == BatchedAcks(ackInterval, ackSequence)
    }

    constructor (lp: LocalPartition, ackInterval: int)
      ensures Valid()
      ensures partition == lp && this.ackInterval == ackInterval
      ensures ackCounter == 0 && ackSequence == 0 && queued == [] && !isStopping
    {
      partition := lp;
      this.ackInterval := ackInterval;
      ackCounter := 0;
      ackSequence := 0;
      queued := [];
      isStopping := false;
    }

    /**
     * Processes one received request: appends its data, if any, to the
     * partition's log; counts it; and enqueues an ack when the counter reaches
     * the interval, resetting the counter.
     */
    method OnReceive(req: PublishRequest)
      requires Valid()
      modifies this, partition`published
      ensures Valid()
      ensures ackSequence == old(ackSequence) + 1
      ensures ackInterval >= 1 ==> (ackCounter == 0 <==> old(ackCounter) + 1 == ackInterval)
      ensures queued == old(queued) + (if ackCounter == 0 then [AckResponse(ackSequence)] else [])
      ensures partition.published == old(partition.published) + (if req.DataRequest? then [req.data] else [])
      ensures isStopping == old(isStopping)
    {
      if req.DataRequest? {
        partition.Publish(req.data);
      }
      ModStep(ackSequence, EffectiveInterval(ackInterval));
      ackCounter := ackCounter + 1;
      ackSequence := ackSequence + 1;
      if ackCounter >= ackInterval {
        ackCounter := 0;
        queued := queued + [AckResponse(ackSequence)];
      }
    }

    /**
     * The ingestion loop: receives and processes requests until a receive
     * fails, and returns that failure.
     */
    method ReceiveAll(stream: Stream) returns (err: StreamError)
      requires Valid() && stream.pos <= |stream.incoming|
      modifies this, partition`published, stream`pos
      ensures Valid() && isStopping == old(isStopping)
      ensures var n := ReceivedCount(stream.incoming, old(stream.pos));
        ackSequence == old(ackSequence) + n
        && partition.published == old(partition.published) + Payloads(stream.incoming, old(stream.pos), old(stream.pos) + n)
        && err == TerminalError(stream.incoming, old(stream.pos))
    {
      ghost var start := stream.pos;
      ghost var seq0 := ackSequence;
      ghost var published0 := partition.published;
      while true
        invariant start <= stream.pos <= |stream.incoming|
        invariant stream.pos - start <= ReceivedCount(stream.incoming, start)
        invariant Valid() && isStopping == old(isStopping)
        invariant ackSequence == seq0 + (stream.pos - start)
        invariant partition.published == published0 + Payloads(stream.incoming, start, stream.pos)
        decreases |stream.incoming| - stream.pos
      {
        ghost var before := stream.pos;
        var r := stream.Recv();
        if r.RecvFailed? {
          ReceivedCountEnds(stream.incoming, start, before);
          err := r.error;
          break;
        }
        assert stream.pos == before + 1 && stream.incoming[before] == r;
        ReceivedCountExtends(stream.incoming, start, before);
        ghost var done := Payloads(stream.incoming, start, before);
        assert partition.published == published0 + done;
        OnReceive(r.request);
        assert partition.published == (published0 + done) + DataOf(r) == published0 + (done + DataOf(r));
      }
    }

    /** Marks the session as stopping; the outbound sender stops on its next tick. */
    method Stop()
      modifies this`isStopping
      ensures isStopping
    {
      isStopping := true;
    }
  }

  // ---------------------------------------------------------------------
  // The broker

  class MessageQueueBroker {
    const brokerAddress: BrokerAddress
    const manager: LocalTopicManager

    constructor (brokerAddress: BrokerAddress, manager: LocalTopicManager)
      ensures this.brokerAddress == brokerAddress && this.manager == manager
    {
      this.brokerAddress := brokerAddress;
      this.manager := manager;
    }

    /**
     * Activates (t, p) from the assignment document: the first row naming this
     * broker as leader of p becomes a fresh local partition, registered under
     * (t, p) whether or not an entry was already there. With no such row, or
     * when the document cannot be read, the registry is left alone.
     */
    method LoadLocalTopicPartitionFromFiler(t: Topic, p: Partition, f: Filer) returns (lp: LocalPartition?, err: Option<LoadError>)
      requires manager.Valid()
      modifies manager
      ensures manager.Valid()
      ensures Activation(f, brokerAddress, t, p).Success? ==>
        err == None && lp != null && fresh(lp)
        && lp.partition == p && lp.assignment == Activation(f, brokerAddress, t, p).value
        && lp.publishers == {} && lp.published == [] && lp.otherDependents == 0 && !lp.stopped
        && manager.partitions == old(manager.partitions)[(t, p) := lp]
      ensures Activation(f, brokerAddress, t, p).Failure? ==>
        err == Some(Activation(f, brokerAddress, t, p).error) && lp == null
        && manager.partitions == old(manager.partitions)
    {
      var read := ReadTopicConfFromFiler(f, t, p);
      if read.Failure? {
        return null, Some(read.error);
      }
      var assignments := read.value.brokerPartitionAssignments;
      lp := null;
      var hasCreated := false;
      var i := 0;
      while i < |assignments|
        invariant 0 <= i <= |assignments|
        invariant forall j | 0 <= j < i :: !IsLeaderFor(assignments[j], brokerAddress, p)
        invariant !hasCreated && lp == null
        invariant manager.Valid() && manager.partitions == old(manager.partitions)
      {
        var assignment := assignments[i];
        if assignment.leaderBroker == brokerAddress && p == assignment.partition {
          lp := new LocalPartition(p, assignment);
          manager.AddTopicPartition(t, lp);
          hasCreated := true;
          break;
        }
        i := i + 1;
      }
      if !hasCreated {
        return null, Some(NotAssigned(t, p, brokerAddress));
      }
      err := None;
    }

    /**
     * The deferred cleanup of a session: stop it, detach its publisher, and
     * drop (t, p) from the registry if the partition then shuts down.
     */
    method CleanupSession(session: PublisherSession, clientName: string, t: Topic, p: Partition)
      requires manager.Valid()
      modifies manager, session`isStopping, session.partition`publishers, session.partition`stopped
      ensures manager.Valid() && session.isStopping
      ensures session.partition.publishers == old(session.partition.publishers) - {clientName}
      ensures session.partition.stopped == (old(session.partition.stopped) || session.partition.ShouldShutdown())
      ensures manager.partitions ==
        if session.partition.ShouldShutdown() then old(manager.partitions) - {(t, p)} else old(manager.partitions)
    {
      session.Stop();
      var lp := session.partition;
      lp.RemovePublisher(clientName);
      var shut := lp.MaybeShutdown();
      if shut {
        manager.RemoveTopicPartition(t, p);
      }
    }

    /**
     * The init handshake. The first receive must deliver an Init; its
     * partition is looked up in the registry and, on a miss, activated from
     * the filer. A failed receive is returned as is; a missing Init or a
     * failed activation sends one error response and returns what that send
     * returned; otherwise an empty response accepts the session.
     */
    method Handshake(stream: Stream, f: Filer) returns (init: InitMessage, lp: LocalPartition?, err: Option<StreamError>)
      requires stream.pos == 0 && stream.sent == []
      requires manager.Valid()
      modifies stream, manager
      ensures manager.Valid()
      ensures stream.pos == (if stream.incoming == [] then 0 else 1)
      ensures FirstReceived(stream.incoming).RecvFailed? ==>
        lp == null && err == Some(FirstReceived(stream.incoming).error) && stream.sent == []
      ensures FirstReceived(stream.incoming).Received? && !HasInit(stream.incoming) ==>
        lp == null && err == stream.sendError && stream.sent == [ErrorResponse(MissingInitText)]
      ensures HasInit(stream.incoming) ==> init == FirstReceived(stream.incoming).request.init
      ensures HasInit(stream.incoming) && (init.topic, init.partition) !in old(manager.partitions)
              && Activation(f, brokerAddress, init.topic, init.partition).Failure? ==>
        lp == null && err == stream.sendError
        && stream.sent == [ErrorResponse(NotSetupText(init.topic, Activation(f, brokerAddress, init.topic, init.partition).error))]
      ensures lp == null ==> manager.partitions == old(manager.partitions)
      ensures lp != null ==> err == None
      ensures HasInit(stream.incoming) && (init.topic, init.partition) in old(manager.partitions) ==>
        lp == old(manager.partitions[(init.topic, init.partition)])
        && manager.partitions == old(manager.partitions)
        && stream.sent == [AcceptResponse]
      ensures HasInit(stream.incoming) && (init.topic, init.partition) !in old(manager.partitions)
              && Activation(f, brokerAddress, init.topic, init.partition).Success? ==>
        lp != null && fresh(lp)
        && lp.assignment == Activation(f, brokerAddress, init.topic, init.partition).value
        && lp.publishers == {} && lp.published == [] && lp.otherDependents == 0 && !lp.stopped
        && manager.partitions == old(manager.partitions)[(init.topic, init.partition) := lp]
        && stream.sent == [AcceptResponse]
    {
      var req := stream.Recv();
      init := InitMessage(Topic("", ""), Partition(0, 0, 0, 0), 1);
      if req.RecvFailed? {
        return init, null, Some(req.error);
      }
      if !req.request.InitRequest? {
        err := stream.Send(ErrorResponse(MissingInitText));
        return init, null, err;
      }
      init := req.request.init;
      var t, p := init.topic, init.partition;
      lp := manager.GetTopicPartition(t, p);
      if lp == null {
        var loadErr;
        lp, loadErr := LoadLocalTopicPartitionFromFiler(t, p, f);
        if loadErr.Some? {
          err := stream.Send(ErrorResponse(NotSetupText(t, loadErr.value)));
          return init, null, err;
        }
      }
      var _ := stream.Send(AcceptResponse);
      err := None;
    }

    /**
     * The accepted part of a stream: attach the publisher, run the ingestion
     * loop until a receive fails, then run the deferred cleanup.
     */
    method Serve(stream: Stream, lp: LocalPartition, init: InitMessage, clientName: string) returns (err: StreamError, session: PublisherSession)
      requires manager.Valid()
      requires (init.topic, init.partition) in manager.partitions && manager.partitions[(init.topic, init.partition)] == lp
      requires stream.pos <= |stream.incoming|
      modifies stream`pos, manager, lp`publishers, lp`published, lp`stopped
      ensures manager.Valid()
      ensures fresh(session) && session.partition == lp && session.ackInterval == init.ackInterval && session.isStopping
      ensures session.ackSequence == ReceivedCount(stream.incoming, old(stream.pos))
      ensures session.queued == BatchedAcks(init.ackInterval, session.ackSequence)
      ensures err == TerminalError(stream.incoming, old(stream.pos))
      ensures lp.published == old(lp.published) + Payloads(stream.incoming, old(stream.pos), old(stream.pos) + session.ackSequence)
      ensures lp.publishers == old(lp.publishers) - {clientName}
      ensures lp.stopped == (old(lp.stopped) || lp.ShouldShutdown())
      ensures manager.partitions ==
        if lp.ShouldShutdown() then old(manager.partitions) - {(init.topic, init.partition)} else old(manager.partitions)
    {
      var ackInterval := init.ackInterval;
      lp.AddPublisher(clientName);
      session := new PublisherSession(lp, ackInterval);
      err := session.ReceiveAll(stream);
      CleanupSession(session, clientName, init.topic, init.partition);
    }

    /**
     * Serves one publish stream: the handshake, then (once accepted) the
     * publisher is attached, every later request is counted and acked in
     * batches until a receive fails, and the session is cleaned up. Failures
     * before acceptance leave the registry and every partition untouched.
     */
    method PublishMessage(stream: Stream, f: Filer, clientName: string) returns (err: Option<StreamError>, session: PublisherSession?)
      requires stream.pos == 0 && stream.sent == []
      requires manager.Valid()
      modifies stream, manager, manager.partitions.Values
      ensures manager.Valid()
      ensures FirstReceived(stream.incoming).RecvFailed? ==>
        session == null && err == Some(FirstReceived(stream.incoming).error) && stream.sent == []
      ensures FirstReceived(stream.incoming).Received? && !HasInit(stream.incoming) ==>
        session == null && err == stream.sendError && stream.sent == [ErrorResponse(MissingInitText)]
      ensures HasInit(stream.incoming) ==>
        var init := FirstReceived(stream.incoming).request.init;
        var t, p := init.topic, init.partition;
        (t, p) !in old(manager.partitions) && Activation(f, brokerAddress, t, p).Failure? ==>
          session == null && err == stream.sendError
          && stream.sent == [ErrorResponse(NotSetupText(t, Activation(f, brokerAddress, t, p).error))]
      ensures session == null ==> manager.partitions == old(manager.partitions)
      ensures forall q | q in old(manager.partitions.Values) && (session == null || q != session.partition) ::
        q.publishers == old(q.publishers) && q.published == old(q.published)
        && q.stopped == old(q.stopped) && q.otherDependents == old(q.otherDependents)
      ensures HasInit(stream.incoming) ==>
        var init := FirstReceived(stream.incoming).request.init;
        var t, p := init.topic, init.partition;
        (t, p) in old(manager.partitions) || Activation(f, brokerAddress, t, p).Success? ==>
          session != null && fresh(session)
          && stream.sent == [AcceptResponse]
          && err == Some(TerminalError(stream.incoming, 1))
          && session.ackInterval == init.ackInterval
          && session.ackSequence == ReceivedCount(stream.incoming, 1)
          && session.queued == BatchedAcks(init.ackInterval, session.ackSequence)
          && session.isStopping
          && var lp := session.partition;
          ((t, p) in old(manager.partitions) ==>
             lp == old(manager.partitions[(t, p)])
             && lp.publishers == old(lp.publishers) - {clientName}
             && lp.otherDependents == old(lp.otherDependents)
             && lp.stopped == (old(lp.stopped) || lp.ShouldShutdown())
             && lp.published == old(lp.published) + Payloads(stream.incoming, 1, 1 + session.ackSequence))
          && ((t, p) !in old(manager.partitions) ==>
             fresh(lp) && lp.assignment == Activation(f, brokerAddress, t, p).value
             && lp.publishers == {} && lp.otherDependents == 0 && lp.stopped
             && lp.published == Payloads(stream.incoming, 1, 1 + session.ackSequence))
          && manager.partitions ==
             (if lp.ShouldShutdown() then old(manager.partitions)[(t, p) := lp] - {(t, p)}
              else old(manager.partitions)[(t, p) := lp])
    {
      var init, lp, handshakeErr := Handshake(stream, f);
      if lp == null {
        return handshakeErr, null;
      }
      var recvErr;
      recvErr, session := Serve(stream, lp, init, clientName);
      err := Some(recvErr);
    }
  }
}

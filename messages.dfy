/**
 * The publish stream's wire types and the stream itself. The bidirectional
 * gRPC stream is abstracted as the finite sequence of what successive
 * receives return, plus a log of what the handler sends.
 */
module Messages {
  import opened Wrappers
  import opened Topic

  datatype InitMessage = InitMessage(topic: Topic, partition: Partition, ackInterval: int)

  /** A PublishRequest carries at most one of its two payloads. */
  datatype PublishRequest = InitRequest(init: InitMessage) | DataRequest(data: DataMessage) | EmptyRequest

  /** A PublishMessageResponse; an empty `error` means no error. */
  datatype Response = Response(ackSequence: int, shouldClose: bool, error: string)

  datatype StreamError = EOF | Canceled | Transport(code: int)

  /** The outcome of one receive on the stream. */
  datatype Received = Received(request: PublishRequest) | RecvFailed(error: StreamError)

  class Stream {
    /** What successive receives return; receiving past the end yields EOF. */
    const incoming: seq<Received>
    /** What every send on this stream returns. */
    const sendError: Option<StreamError>
    /** Number of entries of `incoming` consumed so far. */
    var pos: nat
    /** Responses handed to Send, in order. */
    var sent: seq<Response>

    constructor (incoming: seq<Received>, sendError: Option<StreamError>)
      ensures this.incoming == incoming && this.sendError == sendError
      ensures pos == 0 && sent == []
    {
      this.incoming := incoming;
      this.sendError := sendError;
      pos := 0;
      sent := [];
    }

    method Recv() returns (r: Received)
      modifies this`pos
      ensures old(pos) < |incoming| ==> r == incoming[old(pos)] && pos == old(pos) + 1
      ensures old(pos) >= |incoming| ==> r == RecvFailed(EOF) && pos == old(pos)
    {
      if pos < |incoming| {
        r := incoming[pos];
        pos := pos + 1;
      } else {
        r := RecvFailed(EOF);
      }
    }

    method Send(resp: Response) returns (err: Option<StreamError>)
      modifies this`sent
      ensures sent == old(sent) + [resp] && err == sendError
    {
      sent := sent + [resp];
      err := sendError;
    }
  }

  /**
   * The number of requests received from position `from` on before the first
   * failed receive (or the end of the stream).
   */
  function ReceivedCount(incoming: seq<Received>, from: nat): (n: nat)
    requires from <= |incoming|
    ensures from + n <= |incoming|
    ensures forall i | from <= i < from + n :: incoming[i].Received?
    ensures from + n < |incoming| ==> incoming[from + n].RecvFailed?
    decreases |incoming| - from
  {
    if from == |incoming| || incoming[from].RecvFailed? then 0
    else 1 + ReceivedCount(incoming, from + 1)
  }

  /** The error that ends a run of receives started at `from`. */
  function TerminalError(incoming: seq<Received>, from: nat): StreamError
    requires from <= |incoming|
  {
    var n := ReceivedCount(incoming, from);
    if from + n < |incoming| then incoming[from + n].error else EOF
  }

  function DataOf(r: Received): seq<DataMessage>
  {
    if r.Received? && r.request.DataRequest? then [r.request.data] else []
  }

  /** The data payloads among incoming[from..to], in order. */
  function Payloads(incoming: seq<Received>, from: nat, to: nat): seq<DataMessage>
    requires from <= to <= |incoming|
  {
    if to == from then [] else Payloads(incoming, from, to - 1) + DataOf(incoming[to - 1])
  }

  /** A request received at position k extends the run counted from `from`. */
  lemma ReceivedCountExtends(incoming: seq<Received>, from: nat, k: nat)
    requires from <= k < |incoming| && incoming[k].Received?
    requires k - from <= ReceivedCount(incoming, from)
    ensures k + 1 - from <= ReceivedCount(incoming, from)
  {
  }

  /** A failure (or the end) at position k ends the run counted from `from`. */
  lemma ReceivedCountEnds(incoming: seq<Received>, from: nat, k: nat)
    requires from <= k <= |incoming| && (k == |incoming| || incoming[k].RecvFailed?)
    requires k - from <= ReceivedCount(incoming, from)
    ensures ReceivedCount(incoming, from) == k - from
    ensures TerminalError(incoming, from) == if k < |incoming| then incoming[k].error else EOF
  {
  }
}

/**
 * Which acknowledgements a publisher session enqueues. The session counts
 * every received request; each time its counter reaches the ack interval it
 * enqueues an ack carrying the running count. A non-positive interval makes
 * every request ack-eligible, exactly as an interval of 1 does.
 */
module AckBatching {
  import opened Messages

  /** The interval the counter behaves as if it had. */
  function EffectiveInterval(ackInterval: int): int
  {
    if ackInterval >= 1 then ackInterval else 1
  }

  /** A batched ack: the running sequence, no close request, no error. */
  function AckResponse(ackSequence: int): Response
  {
    Response(ackSequence, false, "")
  }

  /** The acks enqueued after the first n requests, built request by request. */
  function BatchedAcks(ackInterval: int, n: nat): (acks: seq<Response>)
    ensures |acks| <= n
    ensures forall j | 0 <= j < |acks| :: !acks[j].shouldClose && acks[j].error == ""
  {
    if n == 0 then []
    else
      BatchedAcks(ackInterval, n - 1)
      + (if n % EffectiveInterval(ackInterval) == 0 then [AckResponse(n)] else [])
  }

  lemma DivModUnique(x: int, e: int, q: int, r: int)
    requires e >= 1 && 0 <= r < e && x == q * e + r
    ensures x / e == q && x % e == r
  {
    var q', r' := x / e, x % e;
    assert (q - q') * e == r' - r;
    if q - q' >= 1 {
      MulAtLeast(q - q', e);
    } else if q' - q >= 1 {
      MulAtLeast(q' - q, e);
    }
  }

  lemma MulAtLeast(a: int, e: int)
    requires a >= 1 && e >= 1
    ensures a * e >= e
  {
    assert a * e == (a - 1) * e + e;
  }

  /**
   * One more request either completes a batch (remainder wraps to 0, quotient
   * grows by one) or grows the remainder by one.
   */
  lemma ModStep(n: nat, e: int)
    requires e >= 1
    ensures n % e + 1 == e ==> (n + 1) % e == 0 && (n + 1) / e == n / e + 1
    ensures n % e + 1 < e ==> (n + 1) % e == n % e + 1 && (n + 1) / e == n / e
  {
    var q, r := n / e, n % e;
    if r + 1 == e {
      DivModUnique(n + 1, e, q + 1, 0);
    } else {
      DivModUnique(n + 1, e, q, r + 1);
    }
  }

  /**
   * After m requests exactly floor(m / k) acks are enqueued (k the effective
   * interval), the j-th carrying (j + 1) * k.
   */
  lemma {:induction false} BatchedAcksClosedForm(ackInterval: int, m: nat)
    ensures |BatchedAcks(ackInterval, m)| == m / EffectiveInterval(ackInterval)
    ensures forall j | 0 <= j < |BatchedAcks(ackInterval, m)| ::
      BatchedAcks(ackInterval, m)[j] == AckResponse((j + 1) * EffectiveInterval(ackInterval))
  {
    var e := EffectiveInterval(ackInterval);
    if m == 0 {
      DivModUnique(0, e, 0, 0);
    } else {
      BatchedAcksClosedForm(ackInterval, m - 1);
      ModStep(m - 1, e);
      if m % e == 0 {
        assert m == (m / e) * e;
      }
    }
  }

  lemma MulStrict(i: int, j: int, e: int)
    requires i < j && e >= 1
    ensures i * e < j * e
  {
    MulAtLeast(j - i, e);
    assert j * e - i * e == (j - i) * e;
  }

  /** The enqueued ack sequences are strictly increasing. */
  lemma BatchedAcksIncreasing(ackInterval: int, m: nat)
    ensures forall i, j | 0 <= i < j < |BatchedAcks(ackInterval, m)| ::
      BatchedAcks(ackInterval, m)[i].ackSequence < BatchedAcks(ackInterval, m)[j].ackSequence
  {
    var acks, e := BatchedAcks(ackInterval, m), EffectiveInterval(ackInterval);
    BatchedAcksClosedForm(ackInterval, m);
    forall i, j | 0 <= i < j < |acks|
      ensures acks[i].ackSequence < acks[j].ackSequence
    {
      MulStrict(i + 1, j + 1, e);
    }
  }

  /** Each ack carries a count no larger than the number of requests received. */
  lemma {:induction false} BatchedAcksBounded(ackInterval: int, m: nat)
    ensures forall j | 0 <= j < |BatchedAcks(ackInterval, m)| ::
      1 <= BatchedAcks(ackInterval, m)[j].ackSequence <= m
  {
    if m > 0 {
      BatchedAcksBounded(ackInterval, m - 1);
    }
  }

  /** The queue only grows: the acks after m requests begin the acks after m'. */
  lemma {:induction false} BatchedAcksPrefix(ackInterval: int, m: nat, m': nat)
    requires m <= m'
    ensures BatchedAcks(ackInterval, m) <= BatchedAcks(ackInterval, m')
    decreases m' - m
  {
    if m < m' {
      BatchedAcksPrefix(ackInterval, m, m' - 1);
    }
  }

  /** With a non-positive interval every request is acked with its own count. */
  lemma EveryRequestAckedWhenUnset(ackInterval: int, m: nat)
    requires ackInterval <= 0
    ensures BatchedAcks(ackInterval, m) == seq(m, j => AckResponse(j + 1))
  {
    BatchedAcksClosedForm(ackInterval, m);
  }
}

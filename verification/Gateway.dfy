/** The gateway's upload path: a client's messages are dealt round-robin over the input shards of
    the first stage, stamped by one counter shared by all of them, and each shard is told how many
    messages it got. */
module Gateway {
  import opened Common

  /** What the socket yields; the end of the sequence is a closed connection. */
  datatype Incoming = Data(payload: int) | Eof | Unexpected

  datatype Forwarded = Forwarded(shard: int, seqNo: nat, payload: int)

  /** Length of the data received before anything else. */
  function DataLength(conn: seq<Incoming>): (n: nat)
    ensures n <= |conn|
    ensures forall k :: 0 <= k < n ==> conn[k].Data?
    ensures n < |conn| ==> !conn[n].Data?
  {
    if conn == [] || !conn[0].Data? then 0 else 1 + DataLength(conn[1..])
  }

  /** How many of the first `total` messages go to shard i. */
  function DealtTo(total: nat, n: Shards, i: int): nat {
    if total == 0 then 0 else DealtTo(total - 1, n, i) + (if (total - 1) % n == i then 1 else 0)
  }

  /** Shard i gets the ceiling of (total - i) / n. */
  lemma {:induction false} DealtToFormula(total: nat, n: Shards, i: int)
    requires 0 <= i < n
    ensures DealtTo(total, n, i) == (total + n - 1 - i) / n
  {
    if total == 0 {
      Quotient(n - 1 - i, n, 0, n - 1 - i);
    } else {
      DealtToFormula(total - 1, n, i);
      var before := total - 1 + n - 1 - i;
      var q, r := before / n, before % n;
      assert before == q * n + r;
      if r == n - 1 {
        ThisShard(total - 1, n, i, q);
      } else {
        Quotient(total + n - 1 - i, n, q, r + 1);
        NotThisShard(total - 1, n, i, q, r);
      }
    }
  }

  lemma ThisShard(k: nat, n: Shards, i: int, q: int)
    requires 0 <= i < n && k + n - 1 - i == q * n + n - 1
    ensures k % n == i && (k + n - i) / n == q + 1
  {
    assert (q + 1) * n == q * n + n;
    Quotient(k + n - i, n, q + 1, 0);
    Quotient(k, n, q, i);
  }

  lemma NotThisShard(k: nat, n: Shards, i: int, q: int, r: int)
    requires 0 <= i < n && k + n - 1 - i == q * n + r && 0 <= r < n - 1
    ensures k % n != i
  {
    if k % n == i {
      var p := k / n;
      assert k == p * n + i;
      assert p * n + n - 1 == q * n + r;
      Quotient(p * n + n - 1, n, p, n - 1);
      Quotient(p * n + n - 1, n, q, r);
    }
  }

  ghost function ShardOf(i: int): Forwarded -> nat {
    (f: Forwarded) => if f.shard == i then 1 else 0
  }

  /** Message number k gets stamp start + k + 1 and goes to shard k mod n. */
  ghost predicate Dealt(conn: seq<Incoming>, n: Shards, start: nat, total: nat, sent: seq<Forwarded>)
    requires total <= |conn| && forall k :: 0 <= k < total ==> conn[k].Data?
  {
    |sent| == total && forall k :: 0 <= k < total ==> sent[k] == Forwarded(k % n, start + k + 1, conn[k].payload)
  }

  /** Deals out the stream. Only if it ends with its end-of-stream is every shard told its number;
      the number is exactly what the shard was sent. */
  method ForwardSharded(conn: seq<Incoming>, n: Shards, start: nat)
    returns (done: bool, sent: seq<Forwarded>, expected: seq<nat>)
    ensures done <==> DataLength(conn) < |conn| && conn[DataLength(conn)].Eof?
    ensures Dealt(conn, n, start, DataLength(conn), sent)
    ensures done ==> |expected| == n && forall i :: 0 <= i < n ==> expected[i] == SumOf(ShardOf(i), sent)
    ensures !done ==> expected == []
  {
    sent, expected := [], [];
    var counts: seq<nat> := seq(n, i => 0);
    var counter := start;
    var rr := 0;
    while true
      invariant 0 <= rr <= DataLength(conn) && counter == start + rr
      invariant Dealt(conn, n, start, rr, sent)
      invariant |counts| == n && forall i :: 0 <= i < n ==> counts[i] == SumOf(ShardOf(i), sent)
      decreases |conn| - rr
    {
      if rr == |conn| {
        return false, sent, [];
      }
      match conn[rr]
      case Eof =>
        return true, sent, counts;
      case Unexpected =>
        return false, sent, [];
      case Data(payload) =>
        var shard := rr % n;
        counter := counter + 1;
        var message := Forwarded(shard, counter, payload);
        forall i ensures SumOf(ShardOf(i), sent + [message]) == SumOf(ShardOf(i), sent) + (if i == shard then 1 else 0)
        {
          OneMore(sent, message, i);
        }
        sent := sent + [message];
        counts := counts[shard := counts[shard] + 1];
        rr := rr + 1;
    }
  }

  lemma OneMore(sent: seq<Forwarded>, f: Forwarded, i: int)
    ensures SumOf(ShardOf(i), sent + [f]) == SumOf(ShardOf(i), sent) + (if i == f.shard then 1 else 0)
  {
    SumOfConcat(ShardOf(i), sent, [f]);
    SumOfOne(ShardOf(i), f);
  }

  /** Round-robin shares: shard i of n gets exactly the ceiling of (total - i) / n messages. */
  lemma {:induction false} SharesAreEven(conn: seq<Incoming>, n: Shards, start: nat, total: nat, sent: seq<Forwarded>,
                                         i: int)
    requires total <= |conn| && forall k :: 0 <= k < total ==> conn[k].Data?
    requires Dealt(conn, n, start, total, sent) && 0 <= i < n
    ensures SumOf(ShardOf(i), sent) == (total + n - 1 - i) / n
  {
    ShareOfPrefix(conn, n, start, total, sent, i);
    DealtToFormula(total, n, i);
  }

  lemma {:induction false} ShareOfPrefix(conn: seq<Incoming>, n: Shards, start: nat, total: nat, sent: seq<Forwarded>,
                                         i: int)
    requires total <= |conn| && forall k :: 0 <= k < total ==> conn[k].Data?
    requires Dealt(conn, n, start, total, sent)
    ensures SumOf(ShardOf(i), sent) == DealtTo(total, n, i)
  {
    if total > 0 {
      ShareOfPrefix(conn, n, start, total - 1, sent[..total - 1], i);
      assert sent == sent[..total - 1] + [sent[total - 1]];
      OneMore(sent[..total - 1], sent[total - 1], i);
    }
  }
}

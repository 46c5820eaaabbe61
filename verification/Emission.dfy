/** Emitting a client's results on the end-of-stream path. State, expected count and counters are
    saved before the first send, so after a crash the same results are sent again under the same
    stamps: any number of interrupted attempts followed by a complete one looks downstream like a
    single emission, and the counts reported to the ring are the same every time. */
module Emission {
  import opened Common
  import opened Replay

  /** One copy for every downstream peer. */
  function Broadcast(payload: int, shards: nat): (sends: seq<Send>)
    ensures |sends| == shards
    ensures forall i :: 0 <= i < shards ==> sends[i] == Send(i, payload)
  {
    seq(shards, i => Send(i, payload))
  }

  function SendsFor(r: Routed<int>, shards: Shards, broadcast: bool): seq<Send> {
    if broadcast then Broadcast(r.message, shards) else [Send(r.affinity % shards, r.message)]
  }

  function SendsOf(results: seq<Routed<int>>, shards: Shards, broadcast: bool): seq<Send> {
    if results == [] then []
    else SendsOf(results[..|results| - 1], shards, broadcast) + SendsFor(results[|results| - 1], shards, broadcast)
  }

  /** A merge numbers its results and deals them out in turn. */
  function Dealt(payloads: seq<int>): (results: seq<Routed<int>>)
    ensures |results| == |payloads|
    ensures forall i :: 0 <= i < |results| ==> results[i] == Routed(payloads[i], i)
  {
    seq(|payloads|, i requires 0 <= i < |payloads| => Routed(payloads[i], i))
  }

  // ---- Where the sends go ----------------------------------------------------------------------------

  /** What was sent on a route, in order. */
  function PayloadsOn(sends: seq<Send>, route: Route): seq<int> {
    if sends == [] then []
    else
      PayloadsOn(sends[..|sends| - 1], route)
      + if sends[|sends| - 1].route == route then [sends[|sends| - 1].payload] else []
  }

  lemma {:induction false} PayloadsConcat(a: seq<Send>, b: seq<Send>, route: Route)
    ensures PayloadsOn(a + b, route) == PayloadsOn(a, route) + PayloadsOn(b, route)
  {
    if b == [] {
      assert a + b == a;
    } else {
      assert (a + b)[..|a + b| - 1] == a + b[..|b| - 1];
      PayloadsConcat(a, b[..|b| - 1], route);
    }
  }

  /** A routed result goes to the shard its affinity selects and to no other. */
  lemma {:induction false} SharedOut(results: seq<Routed<int>>, shards: Shards)
    ensures |SendsOf(results, shards, false)| == |results|
    ensures forall i :: 0 <= i < |results| ==>
              SendsOf(results, shards, false)[i] == Send(results[i].affinity % shards, results[i].message)
  {
    if results != [] {
      SharedOut(results[..|results| - 1], shards);
    }
  }

  lemma {:induction false} BroadcastPayload(payload: int, shards: nat, route: Route)
    ensures PayloadsOn(Broadcast(payload, shards), route) == if 0 <= route < shards then [payload] else []
  {
    if shards > 0 {
      BroadcastPayload(payload, shards - 1, route);
      assert Broadcast(payload, shards)[..shards - 1] == Broadcast(payload, shards - 1);
    }
  }

  lemma SendsSnoc(results: seq<Routed<int>>, last: Routed<int>, shards: Shards, broadcast: bool)
    ensures SendsOf(results + [last], shards, broadcast)
         == SendsOf(results, shards, broadcast) + SendsFor(last, shards, broadcast)
  {
    assert (results + [last])[..|results|] == results;
  }

  /** A broadcast takes every result to every shard, in order, and nowhere else. */
  lemma {:induction false} SentToAll(results: seq<Routed<int>>, shards: Shards, route: Route)
    ensures PayloadsOn(SendsOf(results, shards, true), route) == if 0 <= route < shards then Messages(results) else []
    ensures |SendsOf(results, shards, true)| == shards * |results|
    decreases |results|, 0
  {
    if results == [] {
      assert SendsOf(results, shards, true) == [] && PayloadsOn([], route) == [];
    } else {
      MoreToAll(results[..|results| - 1], results[|results| - 1], shards, route);
      assert results[..|results| - 1] + [results[|results| - 1]] == results;
    }
  }

  lemma MoreToAll(results: seq<Routed<int>>, last: Routed<int>, shards: Shards, route: Route)
    ensures PayloadsOn(SendsOf(results + [last], shards, true), route)
         == if 0 <= route < shards then Messages(results + [last]) else []
    ensures |SendsOf(results + [last], shards, true)| == shards * |results + [last]|
    decreases |results|, 1
  {
    hide SendsOf, PayloadsOn, Messages, Broadcast;
    SentToAll(results, shards, route);
    SendsSnoc(results, last, shards, true);
    BroadcastPayload(last.message, shards, route);
    PayloadsConcat(SendsOf(results, shards, true), Broadcast(last.message, shards), route);
    Multiples(shards, |results|);
    assert Messages(results + [last]) == Messages(results) + [last.message];
  }

  lemma Multiples(n: nat, k: nat)
    ensures n * (k + 1) == n * k + n
  {}

  lemma {:induction false} PayloadsAreCounted(sends: seq<Send>, route: Route)
    ensures |PayloadsOn(sends, route)| == CountOn(sends, route)
  {
    if sends != [] {
      var n := |sends| - 1;
      assert sends == sends[..n] + [sends[n]];
      PayloadsAreCounted(sends[..n], route);
      CountOnSnoc(sends[..n], sends[n], route);
    }
  }

  /** The outputs of a log without their numbers. */
  function Unstamped(outputs: seq<Output>): (sends: seq<Send>)
    ensures |sends| == |outputs|
    ensures forall i :: 0 <= i < |sends| ==> sends[i] == Send(outputs[i].route, outputs[i].payload)
  {
    seq(|outputs|, i requires 0 <= i < |outputs| => Send(outputs[i].route, outputs[i].payload))
  }

  /** Between the two logs: every result once, to the shard its affinity selects, and the counts tell how
      many went to each. */
  ghost predicate WentToShards(before: seq<Output>, after: seq<Output>, results: seq<Routed<int>>, shards: Shards,
                               sent: Counts)
  {
    && before <= after && |after| == |before| + |results|
    && (forall i :: 0 <= i < |results| ==>
          && after[|before| + i].route == results[i].affinity % shards
          && after[|before| + i].payload == results[i].message)
    && (forall s :: NumberAt(sent, s) == |set i | 0 <= i < |results| && results[i].affinity % shards == s|)
  }

  /** Between the two logs: all the results to every shard, in order, and the counts tell so. */
  ghost predicate WentToAll(before: seq<Output>, after: seq<Output>, results: seq<Routed<int>>, shards: Shards,
                            sent: Counts)
  {
    && before <= after && |after| == |before| + shards * |results|
    && (forall s :: 0 <= s < shards ==>
          PayloadsOn(Unstamped(after[|before|..]), s) == Messages(results) && NumberAt(sent, s) == |results|)
  }

  lemma SentIs(before: seq<Output>, after: seq<Output>, earlier: seq<Send>, sends: seq<Send>)
    requires Sent(before, after, earlier, sends)
    ensures before <= after && Unstamped(after[|before|..]) == sends
  {
    assert after[|before|..] == StampAll(earlier + sends)[|earlier|..];
    forall i | 0 <= i < |sends| ensures after[|before|..][i] == StampAt(earlier + sends, |earlier| + i) {}
  }

  lemma ShardedEmission(before: seq<Output>, after: seq<Output>, earlier: seq<Send>, results: seq<Routed<int>>,
                        shards: Shards, sent: Counts)
    requires Sent(before, after, earlier, SendsOf(results, shards, false))
    requires Stands(sent, SendsOf(results, shards, false))
    ensures WentToShards(before, after, results, shards, sent)
  {
    var sends := SendsOf(results, shards, false);
    SentIs(before, after, earlier, sends);
    SharedOut(results, shards);
    hide Sent, SendsOf, CountOn;
    forall i | 0 <= i < |results|
      ensures after[|before| + i].route == results[i].affinity % shards
              && after[|before| + i].payload == results[i].message
    {
      assert after[|before|..][i] == after[|before| + i];
      assert Unstamped(after[|before|..])[i] == sends[i];
    }
    forall s ensures NumberAt(sent, s) == |set i | 0 <= i < |results| && results[i].affinity % shards == s| {
      CountOnIs(sends, s);
      assert (set i | 0 <= i < |sends| && sends[i].route == s)
          == (set i | 0 <= i < |results| && results[i].affinity % shards == s);
    }
  }

  lemma BroadcastEmission(before: seq<Output>, after: seq<Output>, earlier: seq<Send>, results: seq<Routed<int>>,
                          shards: Shards, sent: Counts)
    requires Sent(before, after, earlier, SendsOf(results, shards, true))
    requires Stands(sent, SendsOf(results, shards, true))
    ensures WentToAll(before, after, results, shards, sent)
  {
    var sends := SendsOf(results, shards, true);
    SentIs(before, after, earlier, sends);
    SentToAll(results, shards, 0);
    hide Sent, SendsOf, CountOn;
    forall s | 0 <= s < shards ensures PayloadsOn(sends, s) == Messages(results) && NumberAt(sent, s) == |results| {
      SentToAll(results, shards, s);
      PayloadsAreCounted(sends, s);
      assert NumberAt(sent, s) == CountOn(sends, s);
    }
  }

  /** Every count is the number of sends made on its route: what a sender's counter stands at, and what
      a peer reports. */
  ghost predicate Stands(counters: map<Route, nat>, sends: seq<Send>) {
    forall r :: NumberAt(counters, r) == CountOn(sends, r)
  }

  /** The node's downstream senders, one stamping sender per shard. */
  class Txs {
    const shards: Shards
    var counters: map<Route, nat>
    var published: seq<Output>

    ghost predicate Matches(sends: seq<Send>)
      reads this
    {
      Stands(counters, sends)
    }

    constructor (shards: Shards)
      ensures this.shards == shards && published == [] && Matches([])
    {
      this.shards := shards;
      counters, published := map[], [];
    }

    method SendOne(send: Send, ghost earlier: seq<Send>)
      requires Matches(earlier)
      modifies this
      ensures Matches(earlier + [send])
      ensures published == old(published) + [StampAt(earlier + [send], |earlier|)]
    {
      assert (earlier + [send])[..|earlier| + 1] == earlier + [send];
      forall r { CountOnSnoc(earlier, send, r); }
      counters := counters[send.route := NumberAt(counters, send.route) + 1];
      published := published + [Output(send.route, counters[send.route], send.payload)];
    }

    method RestoreSeq(saved: map<Route, nat>)
      modifies this
      ensures counters == saved && published == old(published)
    {
      counters := saved;
    }
  }

  lemma StampsGrow(a: seq<Send>, send: Send)
    ensures StampAll(a + [send]) == StampAll(a) + [StampAt(a + [send], |a|)]
  {
    StampPrefix(a, a + [send]);
  }

  /** Between the two logs exactly these sends were made, after `earlier` ones. */
  ghost predicate Sent(before: seq<Output>, after: seq<Output>, earlier: seq<Send>, sends: seq<Send>) {
    after == before + StampAll(earlier + sends)[|earlier|..]
  }

  /** Two consecutive stretches of sends. */
  lemma SentMore(p0: seq<Output>, p1: seq<Output>, p2: seq<Output>, earlier: seq<Send>, done: seq<Send>,
                 more: seq<Send>)
    requires Sent(p0, p1, earlier, done) && Sent(p1, p2, earlier + done, more)
    ensures Sent(p0, p2, earlier, done + more)
  {
    assert earlier + done + more == earlier + (done + more);
    StampPrefix(earlier + done, earlier + done + more);
    hide StampAll;
  }

  /** Sends in order, stopping after `limit` of them: the process may die between any two. */
  method SendSome(txs: Txs, sends: seq<Send>, limit: nat, ghost earlier: seq<Send>)
    requires txs.Matches(earlier) && limit <= |sends|
    modifies txs
    ensures txs.Matches(earlier + sends[..limit])
    ensures txs.published == old(txs.published) + StampAll(earlier + sends)[|earlier|..|earlier| + limit]
  {
    var i := 0;
    ghost var all := StampAll(earlier + sends);
    assert earlier + sends[..0] == earlier;
    while i < limit
      invariant 0 <= i <= limit
      invariant txs.Matches(earlier + sends[..i])
      invariant txs.published == old(txs.published) + all[|earlier|..|earlier| + i]
    {
      ghost var now := earlier + sends[..i];
      assert earlier + sends[..i + 1] == now + [sends[i]];
      assert now + [sends[i]] <= earlier + sends;
      StampPrefix(now + [sends[i]], earlier + sends);
      hide CountOn, StampAt;
      txs.SendOne(sends[i], now);
      StampsGrow(now, sends[i]);
      assert all[|earlier| + i] == StampAll(now + [sends[i]])[|now|];
      i := i + 1;
    }
  }

  /** The emission loop: every result to the shard its affinity selects, or to all of them, counting
      per shard what was sent. */
  method Emit(txs: Txs, results: seq<Routed<int>>, broadcast: bool, ghost earlier: seq<Send>) returns (sent: Counts)
    requires txs.Matches(earlier)
    modifies txs
    ensures txs.Matches(earlier + SendsOf(results, txs.shards, broadcast))
    ensures Sent(old(txs.published), txs.published, earlier, SendsOf(results, txs.shards, broadcast))
    ensures Stands(sent, SendsOf(results, txs.shards, broadcast))
    ensures !broadcast ==> WentToShards(old(txs.published), txs.published, results, txs.shards, sent)
    ensures broadcast ==> WentToAll(old(txs.published), txs.published, results, txs.shards, sent)
  {
    hide WentToShards, WentToAll;
    sent := map[];
    var i := 0;
    ghost var done: seq<Send> := [];
    assert earlier + [] == earlier;
    assert Sent(txs.published, txs.published, earlier, []) && Stands(map[], []);
    hide Sent, Stands, SendsFor, Txs.Matches;
    while i < |results|
      invariant 0 <= i <= |results| && done == SendsOf(results[..i], txs.shards, broadcast)
      invariant txs.Matches(earlier + done)
      invariant Sent(old(txs.published), txs.published, earlier, done)
      invariant Stands(sent, done)
    {
      assert results[..i + 1][..i] == results[..i];
      ghost var more, before := SendsFor(results[i], txs.shards, broadcast), txs.published;
      sent := EmitOne(txs, results[i], broadcast, sent, earlier + done, done);
      SentMore(old(txs.published), before, txs.published, earlier, done, more);
      assert earlier + done + more == earlier + (done + more);
      done := done + more;
      i := i + 1;
    }
    assert results[..i] == results;
    if broadcast {
      BroadcastEmission(old(txs.published), txs.published, earlier, results, txs.shards, sent);
    } else {
      ShardedEmission(old(txs.published), txs.published, earlier, results, txs.shards, sent);
    }
  }

  /** One result: one send, or the inner loop over all the shards. */
  method EmitOne(txs: Txs, r: Routed<int>, broadcast: bool, sent0: Counts, ghost earlier: seq<Send>,
                 ghost done: seq<Send>) returns (sent: Counts)
    requires txs.Matches(earlier) && Stands(sent0, done)
    modifies txs
    ensures txs.Matches(earlier + SendsFor(r, txs.shards, broadcast))
    ensures Sent(old(txs.published), txs.published, earlier, SendsFor(r, txs.shards, broadcast))
    ensures Stands(sent, done + SendsFor(r, txs.shards, broadcast))
  {
    sent := sent0;
    if broadcast {
      var shard := 0;
      ghost var all := Broadcast(r.message, txs.shards);
      assert earlier + all[..0] == earlier && done + all[..0] == done;
      assert Sent(txs.published, txs.published, earlier, all[..0]);
      hide Sent, Stands, Txs.Matches;
      while shard < txs.shards
        invariant 0 <= shard <= txs.shards
        invariant txs.Matches(earlier + all[..shard])
        invariant Sent(old(txs.published), txs.published, earlier, all[..shard])
        invariant Stands(sent, done + all[..shard])
      {
        ghost var before := txs.published;
        assert all[..shard + 1] == all[..shard] + [Send(shard, r.message)];
        assert earlier + all[..shard + 1] == earlier + all[..shard] + [Send(shard, r.message)];
        assert done + all[..shard + 1] == done + all[..shard] + [Send(shard, r.message)];
        sent := SendCounted(txs, Send(shard, r.message), sent, earlier + all[..shard], done + all[..shard]);
        SentMore(old(txs.published), before, txs.published, earlier, all[..shard], [Send(shard, r.message)]);
        shard := shard + 1;
      }
      assert all[..shard] == all;
    } else {
      sent := SendCounted(txs, Send(r.affinity % txs.shards, r.message), sent, earlier, done);
    }
  }

  method SendCounted(txs: Txs, send: Send, sent0: Counts, ghost earlier: seq<Send>, ghost done: seq<Send>)
    returns (sent: Counts)
    requires txs.Matches(earlier) && Stands(sent0, done)
    modifies txs
    ensures txs.Matches(earlier + [send])
    ensures Sent(old(txs.published), txs.published, earlier, [send])
    ensures Stands(sent, done + [send])
  {
    StampsGrow(earlier, send);
    forall s { CountOnSnoc(done, send, s); }
    hide StampAll, StampAt, CountOn;
    txs.SendOne(send, earlier);
    sent := sent0[send.route := NumberAt(sent0, send.route) + 1];
  }

  // ---- Frozen re-emission -----------------------------------------------------------------------------

  function Furthest(cuts: seq<nat>): nat {
    if cuts == [] then 0
    else if cuts[|cuts| - 1] > Furthest(cuts[..|cuts| - 1]) then cuts[|cuts| - 1] else Furthest(cuts[..|cuts| - 1])
  }

  lemma {:induction false} FurthestBound(cuts: seq<nat>, bound: nat)
    requires forall i :: 0 <= i < |cuts| ==> cuts[i] <= bound
    ensures Furthest(cuts) <= bound
  {
    if cuts != [] {
      FurthestBound(cuts[..|cuts| - 1], bound);
    }
  }

  /** One life of the node: restored counters, some of the sends, and the counters lost again. */
  method Attempt(txs: Txs, sends: seq<Send>, limit: nat, saved: map<Route, nat>, reached: nat, ghost earlier: seq<Send>)
    requires txs.Matches(earlier) && txs.counters == saved && limit <= |sends| && reached <= |sends|
    requires FirstOccurrences(txs.published) == StampAll(earlier + sends)[..|earlier| + reached]
    modifies txs
    ensures txs.Matches(earlier) && txs.counters == saved
    ensures FirstOccurrences(txs.published)
            == StampAll(earlier + sends)[..|earlier| + if limit > reached then limit else reached]
  {
    StampedOnce(earlier + sends);
    EmitAgain(txs.published, StampAll(earlier + sends), |earlier| + reached, |earlier|, |earlier| + limit);
    hide FirstOccurrences, StampAll, Distinct, CountOn;
    SendSome(txs, sends, limit, earlier);
    txs.RestoreSeq(saved);
  }

  /** The node dies after cuts[0] sends, is restored and dies again after cuts[1] sends, and so on.
      Downstream, repetitions dropped, the outputs are the beginning of the one emission. */
  method EmitThroughCrashes(txs: Txs, sends: seq<Send>, cuts: seq<nat>, ghost earlier: seq<Send>)
    requires txs.Matches(earlier) && FirstOccurrences(txs.published) == StampAll(earlier)
    requires forall i :: 0 <= i < |cuts| ==> cuts[i] <= |sends|
    modifies txs
    ensures txs.Matches(earlier)
    ensures Furthest(cuts) <= |sends|
    ensures FirstOccurrences(txs.published) == StampAll(earlier + sends)[..|earlier| + Furthest(cuts)]
  {
    var saved := txs.counters;
    StampPrefix(earlier, earlier + sends);
    FurthestBound(cuts, |sends|);
    var i := 0;
    hide FirstOccurrences, StampAll, CountOn, Txs.Matches;
    while i < |cuts|
      invariant 0 <= i <= |cuts|
      invariant txs.Matches(earlier) && txs.counters == saved
      invariant Furthest(cuts[..i]) <= |sends|
      invariant FirstOccurrences(txs.published) == StampAll(earlier + sends)[..|earlier| + Furthest(cuts[..i])]
    {
      assert cuts[..i + 1][..i] == cuts[..i];
      Attempt(txs, sends, cuts[i], saved, Furthest(cuts[..i]), earlier);
      i := i + 1;
    }
    assert cuts[..i] == cuts;
  }

  /** After any number of interrupted attempts a complete one makes the consumer's view exactly one
      emission, and what it reports to the ring is what a crash-free node would report. */
  method EmitAtLast(txs: Txs, results: seq<Routed<int>>, broadcast: bool, cuts: seq<nat>, ghost earlier: seq<Send>)
    returns (sent: Counts)
    requires txs.Matches(earlier) && FirstOccurrences(txs.published) == StampAll(earlier)
    requires forall i :: 0 <= i < |cuts| ==> cuts[i] <= |SendsOf(results, txs.shards, broadcast)|
    modifies txs
    ensures FirstOccurrences(txs.published) == StampAll(earlier + SendsOf(results, txs.shards, broadcast))
    ensures Stands(sent, SendsOf(results, txs.shards, broadcast))
  {
    var sends := SendsOf(results, txs.shards, broadcast);
    EmitThroughCrashes(txs, sends, cuts, earlier);
    ghost var before := txs.published;
    sent := Emit(txs, results, broadcast, earlier);
    ghost var all := StampAll(earlier + sends);
    StampedOnce(earlier + sends);
    EmitAgain(before, all, |earlier| + Furthest(cuts), |earlier|, |all|);
    assert all[|earlier|..] == all[|earlier|..|all|];
    assert all[..|all|] == all;
  }

  /** The merge's loop: result number i goes to shard i mod n. */
  method EmitDealt(txs: Txs, payloads: seq<int>, ghost earlier: seq<Send>) returns (sent: Counts)
    requires txs.Matches(earlier)
    modifies txs
    ensures txs.Matches(earlier + SendsOf(Dealt(payloads), txs.shards, false))
    ensures Sent(old(txs.published), txs.published, earlier, SendsOf(Dealt(payloads), txs.shards, false))
    ensures Stands(sent, SendsOf(Dealt(payloads), txs.shards, false))
    ensures old(txs.published) <= txs.published && |txs.published| == |old(txs.published)| + |payloads|
    ensures forall i :: 0 <= i < |payloads| ==>
              txs.published[|old(txs.published)| + i].route == i % txs.shards
              && txs.published[|old(txs.published)| + i].payload == payloads[i]
    ensures forall s :: NumberAt(sent, s) == |set i | 0 <= i < |payloads| && i % txs.shards == s|
  {
    hide Sent, Stands, SendsOf, WentToShards;
    sent := Emit(txs, Dealt(payloads), false, earlier);
    DealtEmission(old(txs.published), txs.published, payloads, txs.shards, sent);
  }

  lemma DealtEmission(before: seq<Output>, after: seq<Output>, payloads: seq<int>, shards: Shards, sent: Counts)
    requires WentToShards(before, after, Dealt(payloads), shards, sent)
    ensures before <= after && |after| == |before| + |payloads|
    ensures forall i :: 0 <= i < |payloads| ==>
              after[|before| + i].route == i % shards && after[|before| + i].payload == payloads[i]
    ensures forall s :: NumberAt(sent, s) == |set i | 0 <= i < |payloads| && i % shards == s|
  {
    var results := Dealt(payloads);
    forall i | 0 <= i < |payloads|
      ensures after[|before| + i].route == i % shards && after[|before| + i].payload == payloads[i]
    {
      assert results[i] == Routed(payloads[i], i);
    }
    forall s ensures NumberAt(sent, s) == |set i | 0 <= i < |payloads| && i % shards == s| {
      assert (set i | 0 <= i < |results| && results[i].affinity % shards == s)
          == (set i | 0 <= i < |payloads| && i % shards == s);
    }
  }
}

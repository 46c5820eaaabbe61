/** From one stage to the next. The peers of a stage stamp what they send to a shard, each under its own
    producer for that shard; the barrier tells the shard how many messages to expect. That number is the
    number of distinct identities published to the shard, which is what the next stage relies on. */
module Handover {
  import opened Common
  import opened Deduplicator
  import R = Replay
  import E = Emission
  import F = FrozenEmission
  import C = RingCompletion
  import B = Barrier
  import L = Ledger
  import X = ExactlyOnce

  /** One client's emission at one peer: what the peer had sent before it, and what it sent for it. */
  datatype Stretch = Stretch(before: seq<R.Send>, sends: seq<R.Send>)

  /** What the peers of a stage send for each client, and the producer they stamp a shard's messages with. */
  datatype Upstream = Upstream(stretch: (C.Peer, ClientId) -> Stretch, producer: (C.Peer, C.Shard) -> Producer)

  /** A producer id names one peer and one shard. */
  ghost predicate OwnProducers(up: Upstream) {
    forall p, q, i, j :: up.producer(p, i) == up.producer(q, j) ==> p == q && i == j
  }

  /** The identities of the messages of a stretch on one route. */
  ghost function Stamped(st: Stretch, route: R.Route, producer: Producer): set<Id> {
    set i | |st.before| <= i < |st.before + st.sends| && (st.before + st.sends)[i].route == route ::
      Id(producer, R.StampAt(st.before + st.sends, i).seqNo)
  }

  /** The identities a stage publishes to a shard for a client. */
  ghost function Identities(up: Upstream, peers: set<C.Peer>, c: ClientId, shard: C.Shard): set<Id> {
    set p, id | p in peers && id in Stamped(up.stretch(p, c), shard, up.producer(p, shard)) :: id
  }

  // ---- One peer ------------------------------------------------------------------------------------

  lemma StampedSnoc(st: Stretch, send: R.Send, route: R.Route, producer: Producer)
    ensures var more := Stretch(st.before, st.sends + [send]);
            var all := st.before + more.sends;
            Stamped(more, route, producer) == Stamped(st, route, producer) +
              (if send.route == route then {Id(producer, R.StampAt(all, |all| - 1).seqNo)} else {})
  {
    var more := Stretch(st.before, st.sends + [send]);
    var shorter, all := st.before + st.sends, st.before + more.sends;
    assert all == shorter + [send];
    forall i | 0 <= i < |shorter| ensures R.StampAt(all, i) == R.StampAt(shorter, i) {
      assert all[..i + 1] == shorter[..i + 1];
    }
    hide R.StampAt;
    forall id
      ensures id in Stamped(more, route, producer) <==>
              id in Stamped(st, route, producer)
                || (send.route == route && id == Id(producer, R.StampAt(all, |all| - 1).seqNo))
    {
      if id in Stamped(st, route, producer) {
        var i :| |st.before| <= i < |shorter| && shorter[i].route == route
          && id == Id(producer, R.StampAt(shorter, i).seqNo);
        assert all[i].route == route && id == Id(producer, R.StampAt(all, i).seqNo);
      }
      if send.route == route {
        assert all[|all| - 1].route == route;
      }
    }
  }

  /** Every message of a route has an identity of its own. */
  lemma {:induction false} StampedCount(st: Stretch, route: R.Route, producer: Producer)
    ensures |Stamped(st, route, producer)| == R.CountOn(st.sends, route)
    decreases |st.sends|
  {
    if st.sends == [] {
      assert Stamped(st, route, producer) == {};
    } else {
      var n := |st.sends| - 1;
      var shorter, send := Stretch(st.before, st.sends[..n]), st.sends[n];
      assert st == Stretch(st.before, shorter.sends + [send]);
      StampedCount(shorter, route, producer);
      R.CountOnSnoc(shorter.sends, send, route);
      StampedSnoc(shorter, send, route, producer);
      if send.route == route {
        LastIsNew(shorter, send, producer);
      }
      hide R.CountOn, Stamped;
    }
  }

  lemma LastIsNew(st: Stretch, send: R.Send, producer: Producer)
    ensures var all := st.before + (st.sends + [send]);
            Id(producer, R.StampAt(all, |all| - 1).seqNo) !in Stamped(st, send.route, producer)
  {
    var shorter, all := st.before + st.sends, st.before + (st.sends + [send]);
    assert all == shorter + [send];
    forall i | |st.before| <= i < |shorter| && shorter[i].route == send.route
      ensures R.StampAt(shorter, i).seqNo != R.StampAt(all, |all| - 1).seqNo
    {
      assert all[..i + 1] == shorter[..i + 1];
      R.StampsAreDistinct(all, i, |all| - 1);
    }
  }

  // ---- The whole stage -----------------------------------------------------------------------------

  ghost function CountBy(up: Upstream, c: ClientId, shard: C.Shard): C.Peer -> nat {
    (p: C.Peer) => R.CountOn(up.stretch(p, c).sends, shard)
  }

  /** No two peers share an identity, so they add up. */
  lemma {:induction false} IdentitiesCount(up: Upstream, peers: set<C.Peer>, c: ClientId, shard: C.Shard)
    requires OwnProducers(up)
    ensures |Identities(up, peers, c, shard)| == SumOver(CountBy(up, c, shard), peers)
    decreases |peers|
  {
    if peers == {} {
      assert Identities(up, peers, c, shard) == {};
    } else {
      var p := MinimumOf(peers);
      assert |peers - {p}| < |peers|;
      IdentitiesCount(up, peers - {p}, c, shard);
      StampedCount(up.stretch(p, c), shard, up.producer(p, shard));
      IdentitiesSplit(up, peers, p, c, shard);
      hide Identities, Stamped, R.CountOn;
    }
  }

  lemma IdentitiesSplit(up: Upstream, peers: set<C.Peer>, p: C.Peer, c: ClientId, shard: C.Shard)
    requires OwnProducers(up) && p in peers
    ensures var own, others := Stamped(up.stretch(p, c), shard, up.producer(p, shard)),
            Identities(up, peers - {p}, c, shard);
            own !! others && Identities(up, peers, c, shard) == own + others
  {
    forall q ensures forall id :: id in Stamped(up.stretch(q, c), shard, up.producer(q, shard)) ==>
                                    id.producer == up.producer(q, shard) {}
    hide Stamped;
  }

  /** What the ring's peers report is what they sent. */
  ghost predicate Reports(up: Upstream, ring: B.Ring) {
    forall p, c, shard: C.Shard :: NumberAt(ring.sent(p, c), shard) == R.CountOn(up.stretch(p, c).sends, shard)
  }

  /** The identities published to a shard are as many as the stage's peers report together. */
  lemma StageTotalIsIdentities(up: Upstream, ring: B.Ring, c: ClientId, shard: C.Shard)
    requires OwnProducers(up) && Reports(up, ring)
    ensures B.StageTotal(ring, c, shard) == |Identities(up, ring.peers, c, shard)|
  {
    hide R.CountOn, Identities;
    IdentitiesCount(up, ring.peers, c, shard);
    var f := (p: C.Peer) => NumberAt(ring.sent(p, c), shard);
    SumOverSame(f, CountBy(up, c, shard), ring.peers);
  }

  /** Every end-of-stream that the barrier of a stage ever sends meets what the next stage relies on: it
      carries the number of identities published to the shard. */
  lemma EofsAreFair(up: Upstream, ring: B.Ring, states: seq<B.Cluster>, steps: seq<B.Step>, k: nat, eof: C.Action,
                    shard: C.Shard, stage: X.Stage, side: X.Side, s: X.Progress)
    requires OwnProducers(up) && Reports(up, ring)
    requires B.IsRun(ring, states, steps) && k < |states| && eof in states[k].eofs
    requires eof.DownstreamEof? ==> stage.ids(side, eof.client) == Identities(up, ring.peers, eof.client, shard)
    ensures eof.DownstreamEof?
    ensures X.Fair(stage, s, L.Event.Control(X.UpstreamEof(side, eof.client, NumberAt(eof.expectedPerShard, shard))))
  {
    hide Identities;
    B.EofsAreExact(ring, states, steps, k, eof, shard);
    StageTotalIsIdentities(up, ring, eof.client, shard);
  }

  // ---- Where a stretch comes from ------------------------------------------------------------------

  /** An emission in the history of a node, as a stretch of its sends. */
  ghost function StretchOf<S>(code: F.Code<S>, log: seq<F.Emission>, i: nat): Stretch
    requires i < |log|
  {
    Stretch(F.SendsOfLog(code, log[..i]), code.SendsOf(log[i].results))
  }

  lemma {:induction false} HistoryGrows<S>(code: F.Code<S>, log: seq<F.Emission>, i: nat)
    requires i <= |log|
    ensures F.SendsOfLog(code, log[..i]) <= F.SendsOfLog(code, log)
    decreases |log|
  {
    hide E.SendsOf;
    if i < |log| {
      HistoryGrows(code, log[..|log| - 1], i);
      assert log[..|log| - 1][..i] == log[..i];
    } else {
      assert log[..i] == log;
    }
  }

  /** In any run of a stateful node, between messages: for each client in its history that was not aborted
      since, the consumers have seen exactly the stamps of its stretch, and what the node reports to the
      ring is what the stretch sent. */
  lemma HistoryIsStretches<S(!new)>(code: F.Code<S>, states: seq<F.Node<S>>, moves: seq<F.Move>, k: nat, i: nat)
    requires F.IsRun(code, states, moves) && k < |states| && states[k].todo == [] && i < |states[k].live.log|
    ensures var st := StretchOf(code, states[k].live.log, i);
            R.StampAll(st.before + st.sends) <= R.FirstOccurrences(states[k].published)
    ensures var c, ring := states[k].live.log[i].client, states[k].live.ring;
            c in ring.aborted || forall shard: C.Shard ::
              NumberAt(ring.At(c).sent, shard) == R.CountOn(StretchOf(code, states[k].live.log, i).sends, shard)
  {
    var log := states[k].live.log;
    F.EachEmittedOnce(code, states, moves, k);
    F.SendsOfLogSnoc(code, log[..i], log[i]);
    assert log[..i + 1] == log[..i] + [log[i]];
    HistoryGrows(code, log, i + 1);
    var st := StretchOf(code, log, i);
    R.StampPrefix(st.before + st.sends, F.SendsOfLog(code, log));
    assert F.Recorded(code, states[k].live.ring, log[i]);
  }
}

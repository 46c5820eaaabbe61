/** UC4ComputeGraph: turns a batch of transactions into partial graphs, one per affinity. */
module Uc4GroupBy {
  import opened Common
  import opened Uc4Graph
  import opened GraphLedger
  import opened NodeRouting

  const AFFINITY_SHARDS := 50

  ghost function AdjacencyOf(edges: seq<Edge>, n: Node): Adjacency {
    Adjacency(Preds(edges, n), Succs(edges, n))
  }

  lemma AdjacencyOfConcat(a: seq<Edge>, b: seq<Edge>, n: Node)
    ensures AdjacencyOf(a + b, n) == Join(AdjacencyOf(a, n), AdjacencyOf(b, n))
  {
    AdjacencyConcat(a, b, n);
  }

  ghost function InMessage(n: Node): Routed<Graph> -> Adjacency {
    (r: Routed<Graph>) => AdjacencyAt(r.message.nodes, n)
  }

  /** The neighbours of n over a sequence of routed messages. */
  ghost function Spread(outs: seq<Routed<Graph>>, n: Node): Adjacency {
    JoinOf(InMessage(n), outs)
  }

  /** What one batch must become: messages that together hold every edge of the batch in both
      directions, each node in messages of its own affinity. */
  ghost predicate GroupResult(affinityHash: Node -> int, client: ClientId, edges: seq<Edge>, outs: seq<Routed<Graph>>) {
    && (forall r :: r in outs ==> r.message.client == client)
    && (forall r, n :: r in outs && n in r.message.nodes ==> r.affinity == affinityHash(n) % AFFINITY_SHARDS)
    && (forall n :: Spread(outs, n) == AdjacencyOf(edges, n))
  }

  /** A node of the batch is in one message, and no other node in any. */
  method GroupBy(affinityHash: Node -> int, client: ClientId, transactions: seq<Edge>)
    returns (outs: seq<Routed<Graph>>)
    ensures GroupResult(affinityHash, client, transactions, outs)
    ensures forall n :: Occurrences(outs, n) == if AdjacencyOf(transactions, n) != NO_NEIGHBOURS then 1 else 0
  {
    hide Occurrences, Spread, AdjacencyOf;
    var nodes := BuildGraph(transactions);
    outs := RouteNodes(affinityHash, AFFINITY_SHARDS, client, nodes);
    forall n ensures Spread(outs, n) == AdjacencyOf(transactions, n) {
      SpreadOfRouted(affinityHash, AFFINITY_SHARDS, nodes, outs, n);
    }
    forall r, n | r in outs && n in r.message.nodes ensures r.affinity == affinityHash(n) % AFFINITY_SHARDS {
      assert FromNodes(affinityHash, AFFINITY_SHARDS, nodes, r);
    }
  }

  /** add_origin and add_destination for every transaction. */
  method BuildGraph(transactions: seq<Edge>) returns (nodes: map<Node, Adjacency>)
    ensures forall n :: AdjacencyAt(nodes, n) == AdjacencyOf(transactions, n)
    ensures forall n :: n in nodes ==> nodes[n] != NO_NEIGHBOURS
  {
    nodes := map[];
    var i := 0;
    while i < |transactions|
      invariant 0 <= i <= |transactions|
      invariant forall n :: AdjacencyAt(nodes, n) == AdjacencyOf(transactions[..i], n)
      invariant forall n :: n in nodes ==> nodes[n] != NO_NEIGHBOURS
    {
      var t := transactions[i];
      ghost var before := nodes;
      nodes := AddOrigin(nodes, t.target, t.source);
      nodes := AddDestination(nodes, t.source, t.target);
      assert transactions[..i + 1] == transactions[..i] + [t];
      forall n ensures AdjacencyAt(nodes, n) == AdjacencyOf(transactions[..i + 1], n) {
        AdjacencySnoc(transactions[..i], t, n);
        EdgeAdded(before, t, n);
      }
      i := i + 1;
    }
    assert transactions[..i] == transactions;
  }

  function AddOrigin(nodes: map<Node, Adjacency>, n: Node, origin: Node): map<Node, Adjacency> {
    nodes[n := Join(AdjacencyAt(nodes, n), Adjacency({origin}, {}))]
  }

  function AddDestination(nodes: map<Node, Adjacency>, n: Node, destination: Node): map<Node, Adjacency> {
    nodes[n := Join(AdjacencyAt(nodes, n), Adjacency({}, {destination}))]
  }

  /** One transaction adds one predecessor to its target and one successor to its source, which
      are the same node for a self-loop. */
  lemma EdgeAdded(nodes: map<Node, Adjacency>, t: Edge, n: Node)
    ensures AdjacencyAt(AddDestination(AddOrigin(nodes, t.target, t.source), t.source, t.target), n) ==
            Join(AdjacencyAt(nodes, n),
                 Adjacency(if n == t.target then {t.source} else {}, if n == t.source then {t.target} else {}))
  {}

  lemma {:induction false} SpreadOfRouted(affinityHash: Node -> int, shards: Shards, nodes: map<Node, Adjacency>,
                                          outs: seq<Routed<Graph>>, n: Node)
    requires forall r :: r in outs ==> FromNodes(affinityHash, shards, nodes, r)
    requires Occurrences(outs, n) == if n in nodes then 1 else 0
    ensures Spread(outs, n) == AdjacencyAt(nodes, n)
  {
    forall x ensures x in Spread(outs, n).preds <==> x in AdjacencyAt(nodes, n).preds
             ensures x in Spread(outs, n).succs <==> x in AdjacencyAt(nodes, n).succs
    {
      JoinOfMember(InMessage(n), outs, x);
      if n in nodes && (forall r :: r in outs ==> n !in r.message.nodes) {
        SumOfZero(HasNode(n), outs);
        assert false;
      }
    }
  }
}

/** How the UC4 stages split a dictionary of nodes into messages: one message per affinity, each
    node in the message of its own affinity. */
module NodeRouting {
  import opened Common
  import opened Uc4Graph
  import opened GraphLedger

  ghost function HasNode(n: Node): Routed<Graph> -> nat {
    (r: Routed<Graph>) => if n in r.message.nodes then 1 else 0
  }

  /** In how many of the messages the node appears. */
  ghost function Occurrences(outs: seq<Routed<Graph>>, n: Node): nat {
    SumOf(HasNode(n), outs)
  }

  lemma OccurrencesConcat(a: seq<Routed<Graph>>, b: seq<Routed<Graph>>, n: Node)
    ensures Occurrences(a + b, n) == Occurrences(a, n) + Occurrences(b, n)
  {
    SumOfConcat(HasNode(n), a, b);
  }

  lemma OccurrencesSnoc(outs: seq<Routed<Graph>>, r: Routed<Graph>, n: Node)
    ensures Occurrences(outs + [r], n) == Occurrences(outs, n) + (if n in r.message.nodes then 1 else 0)
  {
    OccurrencesConcat(outs, [r], n);
    SumOfOne(HasNode(n), r);
  }

  /** Every node outside `todo` sits in the group of its affinity, and nowhere else. */
  ghost predicate Grouped(affinityHash: Node -> int, shards: Shards, nodes: map<Node, Adjacency>, todo: set<Node>,
                          affinities: map<int, map<Node, Adjacency>>)
  {
    && (forall a, n :: n in NodesAt(affinities, a) ==>
          a == affinityHash(n) % shards && n in nodes && n !in todo && affinities[a][n] == nodes[n])
    && (forall n :: n in nodes && n !in todo ==> n in NodesAt(affinities, affinityHash(n) % shards))
  }

  method GroupByAffinity(affinityHash: Node -> int, shards: Shards, nodes: map<Node, Adjacency>)
    returns (affinities: map<int, map<Node, Adjacency>>)
    ensures Grouped(affinityHash, shards, nodes, {}, affinities)
  {
    affinities := map[];
    var todo := nodes.Keys;
    hide Grouped, NodesAt;
    GroupStarts(affinityHash, shards, nodes);
    while todo != {}
      invariant todo <= nodes.Keys && Grouped(affinityHash, shards, nodes, todo, affinities)
      decreases |todo|
    {
      var n := Choose(todo);
      var a := affinityHash(n) % shards;
      GroupOne(affinityHash, shards, nodes, todo, affinities, n);
      affinities := affinities[a := NodesAt(affinities, a)[n := nodes[n]]];
      todo := todo - {n};
    }
  }

  lemma GroupStarts(affinityHash: Node -> int, shards: Shards, nodes: map<Node, Adjacency>)
    ensures Grouped(affinityHash, shards, nodes, nodes.Keys, map[])
  {}

  lemma GroupOne(affinityHash: Node -> int, shards: Shards, nodes: map<Node, Adjacency>, todo: set<Node>,
                 affinities: map<int, map<Node, Adjacency>>, q: Node)
    requires Grouped(affinityHash, shards, nodes, todo, affinities) && q in todo && todo <= nodes.Keys
    ensures var a := affinityHash(q) % shards;
            Grouped(affinityHash, shards, nodes, todo - {q}, affinities[a := NodesAt(affinities, a)[q := nodes[q]]])
  {
    var a := affinityHash(q) % shards;
    var after := affinities[a := NodesAt(affinities, a)[q := nodes[q]]];
    forall b
      ensures NodesAt(after, b) == if b == a then NodesAt(affinities, a)[q := nodes[q]] else NodesAt(affinities, b) {}
    forall b, n | n in NodesAt(after, b)
      ensures b == affinityHash(n) % shards && n in nodes && n !in todo - {q} && after[b][n] == nodes[n]
    {
      assert n != q ==> n in NodesAt(affinities, b);
    }
    forall n | n in nodes && n !in todo - {q} ensures n in NodesAt(after, affinityHash(n) % shards) {
      assert n != q ==> n in NodesAt(affinities, affinityHash(n) % shards);
    }
  }

  method EmitAll(affinityHash: Node -> int, shards: Shards, client: ClientId, ghost nodes: map<Node, Adjacency>,
                 affinities: map<int, map<Node, Adjacency>>)
    returns (outs: seq<Routed<Graph>>)
    requires Grouped(affinityHash, shards, nodes, {}, affinities)
    ensures forall n :: Occurrences(outs, n) == if n in nodes then 1 else 0
    ensures forall r :: r in outs ==> r.message.client == client && FromNodes(affinityHash, shards, nodes, r)
  {
    hide *;
    outs := [];
    var todo := affinities.Keys;
    EmitStarts(affinityHash, shards, client, nodes, affinities);
    while todo != {}
      invariant todo <= affinities.Keys && Emitting(affinityHash, shards, client, nodes, affinities, todo, outs)
      decreases |todo|
    {
      var a := Choose(todo);
      EmitGroup(affinityHash, shards, client, nodes, affinities, todo, outs, a);
      outs := outs + [Routed(Graph(client, affinities[a]), a)];
      todo := todo - {a};
    }
    EmittedAll(affinityHash, shards, client, nodes, affinities, outs);
  }

  /** The groups outside `todo` have been sent. */
  ghost predicate Emitting(affinityHash: Node -> int, shards: Shards, client: ClientId, nodes: map<Node, Adjacency>,
                           affinities: map<int, map<Node, Adjacency>>, todo: set<int>, outs: seq<Routed<Graph>>) {
    && (forall r :: r in outs ==> r.message.client == client && FromNodes(affinityHash, shards, nodes, r))
    && (forall n :: Occurrences(outs, n) == if n in nodes && affinityHash(n) % shards !in todo then 1 else 0)
  }

  lemma EmitStarts(affinityHash: Node -> int, shards: Shards, client: ClientId, nodes: map<Node, Adjacency>,
                   affinities: map<int, map<Node, Adjacency>>)
    requires Grouped(affinityHash, shards, nodes, {}, affinities)
    ensures Emitting(affinityHash, shards, client, nodes, affinities, affinities.Keys, [])
  {
    forall n | n in nodes ensures affinityHash(n) % shards in affinities {
      assert n in NodesAt(affinities, affinityHash(n) % shards);
    }
  }

  lemma EmitGroup(affinityHash: Node -> int, shards: Shards, client: ClientId, nodes: map<Node, Adjacency>,
                  affinities: map<int, map<Node, Adjacency>>, todo: set<int>, outs: seq<Routed<Graph>>, a: int)
    requires Grouped(affinityHash, shards, nodes, {}, affinities) && a in todo && a in affinities
    requires Emitting(affinityHash, shards, client, nodes, affinities, todo, outs)
    ensures Emitting(affinityHash, shards, client, nodes, affinities, todo - {a},
                     outs + [Routed(Graph(client, affinities[a]), a)])
  {
    hide Occurrences;
    var r := Routed(Graph(client, affinities[a]), a);
    assert affinities[a] == NodesAt(affinities, a);
    forall n
      ensures Occurrences(outs + [r], n) == if n in nodes && affinityHash(n) % shards !in todo - {a} then 1 else 0
    {
      OccurrencesSnoc(outs, r, n);
      assert n in affinities[a] <==> n in nodes && affinityHash(n) % shards == a;
    }
  }

  lemma EmittedAll(affinityHash: Node -> int, shards: Shards, client: ClientId, nodes: map<Node, Adjacency>,
                   affinities: map<int, map<Node, Adjacency>>, outs: seq<Routed<Graph>>)
    requires Emitting(affinityHash, shards, client, nodes, affinities, {}, outs)
    ensures forall n :: Occurrences(outs, n) == if n in nodes then 1 else 0
    ensures forall r :: r in outs ==> r.message.client == client && FromNodes(affinityHash, shards, nodes, r)
  {
    hide FromNodes, Occurrences;
  }

  ghost predicate FromNodes(affinityHash: Node -> int, shards: Shards, nodes: map<Node, Adjacency>, r: Routed<Graph>) {
    forall n :: n in r.message.nodes ==>
      r.affinity == affinityHash(n) % shards && n in nodes && r.message.nodes[n] == nodes[n]
  }

  /** The grouping loop followed by one message per group. */
  method RouteNodes(affinityHash: Node -> int, shards: Shards, client: ClientId, nodes: map<Node, Adjacency>)
    returns (outs: seq<Routed<Graph>>)
    ensures forall n :: Occurrences(outs, n) == if n in nodes then 1 else 0
    ensures forall r :: r in outs ==> r.message.client == client && FromNodes(affinityHash, shards, nodes, r)
  {
    var affinities := GroupByAffinity(affinityHash, shards, nodes);
    outs := EmitAll(affinityHash, shards, client, nodes, affinities);
  }
}

/** UC4 (scatter-gather): the graph vocabulary, the reference meaning of the use case, and
    the reference program that the pipeline is compared with.

    A node stands for `Node.key` and a path for `Path.key`, both taken as abstract
    identities. An edge is one transaction that passed the UC4 filter. */
module Uc4Graph {
  import opened Common

  type Node = int

  datatype Edge = Edge(source: Node, target: Node)
  datatype Path = Path(origin: Node, destination: Node)
  datatype Adjacency = Adjacency(preds: set<Node>, succs: set<Node>)
  datatype Graph = Graph(client: ClientId, nodes: map<Node, Adjacency>)
  datatype HighDegree = HighDegree(client: ClientId, hiOut: set<Node>, hiIn: set<Node>)
  /** A path is only ever written down with the number of times it was met. */
  type Count = n: nat | n > 0 witness 1

  type PathDict = map<Path, Count>

  datatype PathCounts = PathCounts(client: ClientId, counts: PathDict)

  const MIN_DEGREE := 5
  const MIN_PATH_COUNT := 5

  // ---- The reference meaning ---------------------------------------------------------

  ghost function Preds(edges: seq<Edge>, b: Node): set<Node> {
    set e | e in edges && e.target == b :: e.source
  }

  ghost function Succs(edges: seq<Edge>, a: Node): set<Node> {
    set e | e in edges && e.source == a :: e.target
  }

  /** The distinct intermediaries b with a->b and b->c. */
  ghost function Intermediaries(edges: seq<Edge>, p: Path): set<Node> {
    Succs(edges, p.origin) * Preds(edges, p.destination)
  }

  ghost predicate Qualifies(edges: seq<Edge>, p: Path) {
    p.origin != p.destination && |Intermediaries(edges, p)| >= MIN_PATH_COUNT
  }

  /** The account set of a set of paths: both endpoints of each. */
  ghost predicate EndpointsOf(accounts: set<Node>, paths: iset<Path>) {
    forall x :: x in accounts <==> exists p :: p in paths && (p.origin == x || p.destination == x)
  }

  ghost predicate IsAnswer(edges: seq<Edge>, accounts: set<Node>) {
    EndpointsOf(accounts, iset p | Qualifies(edges, p))
  }

  lemma AnswerIsUnique(edges: seq<Edge>, a: set<Node>, b: set<Node>)
    requires IsAnswer(edges, a) && IsAnswer(edges, b)
    ensures a == b
  {
    forall x ensures x in a <==> x in b {}
  }

  // ---- Counting hops through nodes -----------------------------------------------------

  /** How many nodes of one graph message carry the path p, self-paths excluded. */
  ghost function Carriers(nodes: map<Node, Adjacency>, p: Path): set<Node> {
    set n | n in nodes && p.origin in nodes[n].preds && p.destination in nodes[n].succs
  }

  ghost function Weight(g: Graph, p: Path): nat {
    if p.origin == p.destination then 0 else |Carriers(g.nodes, p)|
  }

  ghost function WeightOf(p: Path): Graph -> nat {
    (g: Graph) => Weight(g, p)
  }

  /** Number of (node, pred, succ) triples with this pred and succ over a sequence of graphs. */
  ghost function Hits(graphs: seq<Graph>, p: Path): nat {
    SumOf(WeightOf(p), graphs)
  }

  function GraphsFrom(client: ClientId): Graph -> bool {
    (g: Graph) => g.client == client
  }

  lemma GraphsOneMore(msgs: seq<Graph>, msg: Graph, client: ClientId)
    ensures Where(GraphsFrom(client), msgs + [msg])
            == if msg.client == client then Where(GraphsFrom(client), msgs) + [msg] else Where(GraphsFrom(client), msgs)
  {
    WhereSnoc(GraphsFrom(client), msgs, msg);
  }

  lemma HitsOfOne(g: Graph, p: Path)
    ensures Hits([g], p) == Weight(g, p)
  {
    SumOfOne(WeightOf(p), g);
  }

  lemma HitsConcat(a: seq<Graph>, b: seq<Graph>, p: Path)
    ensures Hits(a + b, p) == Hits(a, p) + Hits(b, p)
  {
    SumOfConcat(WeightOf(p), a, b);
  }

  lemma HitsSnoc(a: seq<Graph>, g: Graph, p: Path)
    ensures Hits(a + [g], p) == Hits(a, p) + Weight(g, p)
  {
    HitsConcat(a, [g], p);
    HitsOfOne(g, p);
  }

  /** Whether the pair (a, c) is one of the pairs preds x succs, self-pairs excluded. */
  ghost function PairIn(preds: set<Node>, succs: set<Node>, p: Path): nat {
    if p.origin in preds && p.destination in succs && p.origin != p.destination then 1 else 0
  }

  lemma CarriersGrow(nodes: map<Node, Adjacency>, done: set<Node>, n: Node, p: Path)
    requires n in nodes && n !in done
    ensures |Carriers(Restrict(nodes, done + {n}), p)| ==
            |Carriers(Restrict(nodes, done), p)|
            + (if p.origin in nodes[n].preds && p.destination in nodes[n].succs then 1 else 0)
  {
    var before := Carriers(Restrict(nodes, done), p);
    var after := Carriers(Restrict(nodes, done + {n}), p);
    if p.origin in nodes[n].preds && p.destination in nodes[n].succs {
      assert after == before + {n};
    } else {
      assert after == before;
    }
  }

  ghost function Restrict(nodes: map<Node, Adjacency>, keys: set<Node>): map<Node, Adjacency> {
    map n | n in nodes && n in keys :: nodes[n]
  }

  lemma RestrictAll(nodes: map<Node, Adjacency>)
    ensures Restrict(nodes, nodes.Keys) == nodes
    ensures Restrict(nodes, {}) == map[]
  {}

  /** Weight contributed by the nodes of g already visited. */
  ghost function Visited(g: Graph, done: set<Node>, p: Path): nat {
    Weight(Graph(g.client, Restrict(g.nodes, done)), p)
  }

  lemma VisitedGrows(g: Graph, done: set<Node>, n: Node, p: Path)
    requires n in g.nodes && n !in done
    ensures Visited(g, done + {n}, p) == Visited(g, done, p) + PairIn(g.nodes[n].preds, g.nodes[n].succs, p)
  {
    CarriersGrow(g.nodes, done, n, p);
  }

  lemma VisitedEnds(g: Graph, p: Path)
    ensures Visited(g, {}, p) == 0
    ensures Visited(g, g.nodes.Keys, p) == Weight(g, p)
  {
    RestrictAll(g.nodes);
  }

  // ---- The reference program -----------------------------------------------------------

  /** The adjacency graph of an edge list: every node with its full neighbour sets. */
  ghost predicate IsAdjacency(edges: seq<Edge>, nodes: map<Node, Adjacency>) {
    && (forall n :: n in nodes ==> nodes[n] == Adjacency(Preds(edges, n), Succs(edges, n)))
    && (forall n :: n !in nodes ==> Preds(edges, n) == {} || Succs(edges, n) == {})
  }

  /** Counting carriers of a full adjacency graph is counting intermediaries. */
  lemma CarriersAreIntermediaries(edges: seq<Edge>, nodes: map<Node, Adjacency>, p: Path)
    requires IsAdjacency(edges, nodes)
    ensures Carriers(nodes, p) == Intermediaries(edges, p)
  {
    forall n ensures n in Carriers(nodes, p) <==> n in Intermediaries(edges, p) {
      if n in Intermediaries(edges, p) {
        assert Edge(p.origin, n) in edges;
        assert Edge(n, p.destination) in edges;
        assert p.origin in Preds(edges, n) && p.destination in Succs(edges, n);
        assert n in nodes;
      }
      if n in Carriers(nodes, p) {
        assert Edge(p.origin, n) in edges;
        assert Edge(n, p.destination) in edges;
      }
    }
  }

  /** Occurrences of p in a batch of pairs awaiting insertion. */
  ghost function Waiting(batch: seq<Path>, p: Path): nat {
    multiset(batch)[p]
  }

  /** One INSERT ... ON CONFLICT DO UPDATE SET cnt = cnt + 1 per pair of the batch. */
  method FlushPairs(table: map<Path, nat>, batch: seq<Path>) returns (updated: map<Path, nat>)
    requires forall p :: p in table ==> table[p] > 0
    ensures forall p :: p in updated ==> updated[p] > 0
    ensures forall p :: NumberAt(updated, p) == NumberAt(table, p) + Waiting(batch, p)
  {
    updated := table;
    var i := 0;
    while i < |batch|
      invariant 0 <= i <= |batch|
      invariant forall p :: p in updated ==> updated[p] > 0
      invariant forall p :: NumberAt(updated, p) == NumberAt(table, p) + Waiting(batch[..i], p)
    {
      assert batch[..i + 1] == batch[..i] + [batch[i]];
      var q := batch[i];
      updated := updated[q := (if q in updated then updated[q] else 0) + 1];
      i := i + 1;
    }
    assert batch[..i] == batch;
  }

  /** Builds both adjacency maps in one pass over the edges. */
  method BuildAdjacency(edges: seq<Edge>)
    returns (succsOf: map<Node, set<Node>>, predsOf: map<Node, set<Node>>)
    ensures forall n :: SetAt(succsOf, n) == Succs(edges, n)
    ensures forall n :: SetAt(predsOf, n) == Preds(edges, n)
  {
    succsOf, predsOf := map[], map[];
    var i := 0;
    while i < |edges|
      invariant 0 <= i <= |edges|
      invariant forall n :: SetAt(succsOf, n) == Succs(edges[..i], n)
      invariant forall n :: SetAt(predsOf, n) == Preds(edges[..i], n)
    {
      var e := edges[i];
      assert edges[..i + 1] == edges[..i] + [e];
      ghost var succs0, preds0 := succsOf, predsOf;
      succsOf := succsOf[e.source := SetAt(succsOf, e.source) + {e.target}];
      predsOf := predsOf[e.target := SetAt(predsOf, e.target) + {e.source}];
      i := i + 1;
      forall n
        ensures SetAt(succsOf, n) == Succs(edges[..i], n)
        ensures SetAt(predsOf, n) == Preds(edges[..i], n)
      {
        AdjacencySnoc(edges[..i - 1], e, n);
        assert SetAt(succsOf, n) == SetAt(succs0, n) + (if n == e.source then {e.target} else {});
        assert SetAt(predsOf, n) == SetAt(preds0, n) + (if n == e.target then {e.source} else {});
      }
    }
    assert edges[..i] == edges;
  }

  lemma AdjacencySnoc(edges: seq<Edge>, e: Edge, n: Node)
    ensures Succs(edges + [e], n) == Succs(edges, n) + (if n == e.source then {e.target} else {})
    ensures Preds(edges + [e], n) == Preds(edges, n) + (if n == e.target then {e.source} else {})
  {
    AdjacencyConcat(edges, [e], n);
    forall x ensures x in Succs([e], n) <==> x in (if n == e.source then {e.target} else {}) {
      if n == e.source && x == e.target { assert e in [e]; }
    }
    forall x ensures x in Preds([e], n) <==> x in (if n == e.target then {e.source} else {}) {
      if n == e.target && x == e.source { assert e in [e]; }
    }
  }

  lemma AdjacencyConcat(a: seq<Edge>, b: seq<Edge>, n: Node)
    ensures Succs(a + b, n) == Succs(a, n) + Succs(b, n)
    ensures Preds(a + b, n) == Preds(a, n) + Preds(b, n)
  {
    assert forall e :: e in a + b <==> e in a || e in b;
  }

  /** Counts the pairs (a, c) through every intermediary and returns the endpoints of the
      pairs seen at least five times. */
  method Oracle(edges: seq<Edge>, pairBatch: nat) returns (accounts: set<Node>)
    ensures IsAnswer(edges, accounts)
  {
    var succsOf, predsOf := BuildAdjacency(edges);
    ghost var full := FullAdjacency(edges, succsOf, predsOf);
    var table := CountPairs(succsOf, predsOf, pairBatch, full);
    forall p ensures NumberAt(table, p) >= MIN_PATH_COUNT <==> Qualifies(edges, p) {
      CarriersAreIntermediaries(edges, full.nodes, p);
    }
    var qualifying := set p | p in table && table[p] >= MIN_PATH_COUNT;
    assert forall p :: p in qualifying <==> NumberAt(table, p) >= MIN_PATH_COUNT;
    accounts := Endpoints(qualifying);
  }

  /** The outer loop, over the intermediaries, with the batch inserted every pairBatch pairs. */
  method CountPairs(succsOf: map<Node, set<Node>>, predsOf: map<Node, set<Node>>, pairBatch: nat, ghost full: Graph)
    returns (table: map<Path, nat>)
    requires full.nodes.Keys == succsOf.Keys * predsOf.Keys
    requires forall n :: n in full.nodes ==> full.nodes[n] == Adjacency(predsOf[n], succsOf[n])
    ensures forall p :: NumberAt(table, p) == Weight(full, p)
  {
    table := map[];
    var batch: seq<Path> := [];
    var bs := succsOf.Keys;
    hide Counting, Weight, PairIn, Waiting;
    CountingStarts(full, bs);
    while bs != {}
      invariant bs <= succsOf.Keys && Counting(full, bs, table, batch)
      decreases |bs|
    {
      var b := Choose(bs);
      if b in predsOf {
        table, batch := CountMore(table, batch, predsOf[b], succsOf[b], pairBatch, full, bs, b);
      } else {
        CountingSkips(full, bs, table, batch, b);
      }
      bs := bs - {b};
    }
    table := CountRest(table, batch, full);
  }

  /** The table and the batch waiting to be flushed hold the pairs of the intermediaries outside bs. */
  ghost predicate Counting(full: Graph, bs: set<Node>, table: map<Path, nat>, batch: seq<Path>) {
    && (forall p :: p in table ==> table[p] > 0)
    && (forall p :: NumberAt(table, p) + Waiting(batch, p) == Visited(full, full.nodes.Keys - bs, p))
  }

  lemma CountingStarts(full: Graph, bs: set<Node>)
    requires full.nodes.Keys <= bs
    ensures Counting(full, bs, map[], [])
  {
    assert full.nodes.Keys - bs == {};
    forall p ensures Visited(full, {}, p) == 0 { VisitedEnds(full, p); }
  }

  method CountMore(table0: map<Path, nat>, batch0: seq<Path>, preds: set<Node>, succs: set<Node>, pairBatch: nat,
                   ghost full: Graph, ghost bs: set<Node>, ghost b: Node)
    returns (table: map<Path, nat>, batch: seq<Path>)
    requires Counting(full, bs, table0, batch0) && b in bs && b in full.nodes
             && full.nodes[b] == Adjacency(preds, succs)
    ensures Counting(full, bs - {b}, table, batch)
  {
    hide Weight, PairIn, Waiting, Visited;
    NextIntermediary(full, bs, b);
    table, batch := CountThrough(table0, batch0, preds, succs, pairBatch);
  }

  lemma CountingSkips(full: Graph, bs: set<Node>, table: map<Path, nat>, batch: seq<Path>, b: Node)
    requires Counting(full, bs, table, batch) && b !in full.nodes
    ensures Counting(full, bs - {b}, table, batch)
  {
    assert full.nodes.Keys - (bs - {b}) == full.nodes.Keys - bs;
  }

  method CountRest(table0: map<Path, nat>, batch: seq<Path>, ghost full: Graph) returns (table: map<Path, nat>)
    requires Counting(full, {}, table0, batch)
    ensures forall p :: NumberAt(table, p) == Weight(full, p)
  {
    hide Weight, PairIn, Waiting, Visited;
    assert full.nodes.Keys - {} == full.nodes.Keys;
    forall p ensures Visited(full, full.nodes.Keys, p) == Weight(full, p) { VisitedEnds(full, p); }
    table := FlushPairs(table0, batch);
  }

  lemma NextIntermediary(full: Graph, bs: set<Node>, b: Node)
    requires b in bs
    ensures forall p ::
      Visited(full, full.nodes.Keys - (bs - {b}), p)
      == Visited(full, full.nodes.Keys - bs, p)
        + (if b in full.nodes then PairIn(full.nodes[b].preds, full.nodes[b].succs, p) else 0)
  {
    var done := full.nodes.Keys - bs;
    if b in full.nodes {
      assert full.nodes.Keys - (bs - {b}) == done + {b};
      forall p { VisitedGrows(full, done, b, p); }
    } else {
      assert full.nodes.Keys - (bs - {b}) == done;
    }
  }

  function Endpoints(paths: set<Path>): (accounts: set<Node>)
    ensures EndpointsOf(accounts, iset p | p in paths)
  {
    (set p | p in paths :: p.origin) + (set p | p in paths :: p.destination)
  }

  ghost function FullAdjacency(edges: seq<Edge>, succsOf: map<Node, set<Node>>,
                               predsOf: map<Node, set<Node>>): (g: Graph)
    requires forall n :: SetAt(succsOf, n) == Succs(edges, n)
    requires forall n :: SetAt(predsOf, n) == Preds(edges, n)
    ensures IsAdjacency(edges, g.nodes)
    ensures g.nodes.Keys == succsOf.Keys * predsOf.Keys
    ensures forall n :: n in g.nodes ==> g.nodes[n] == Adjacency(predsOf[n], succsOf[n])
  {
    var nodes := map b | b in succsOf && b in predsOf :: Adjacency(predsOf[b], succsOf[b]);
    assert forall n :: n in nodes ==> SetAt(succsOf, n) == Succs(edges, n) && SetAt(predsOf, n) == Preds(edges, n);
    assert forall n :: n !in nodes ==> SetAt(succsOf, n) == {} || SetAt(predsOf, n) == {};
    Graph(0, nodes)
  }

  /** The middle loop: every predecessor in turn, flushing the batch when it is full. */
  method CountThrough(table0: map<Path, nat>, batch0: seq<Path>, preds: set<Node>, succs: set<Node>, pairBatch: nat)
    returns (table: map<Path, nat>, batch: seq<Path>)
    requires forall p :: p in table0 ==> table0[p] > 0
    ensures forall p :: p in table ==> table[p] > 0
    ensures forall p :: NumberAt(table, p) + Waiting(batch, p)
                     == NumberAt(table0, p) + Waiting(batch0, p) + PairIn(preds, succs, p)
  {
    table, batch := table0, batch0;
    var origins := preds;
    while origins != {}
      invariant origins <= preds
      invariant forall p :: p in table ==> table[p] > 0
      invariant forall p :: NumberAt(table, p) + Waiting(batch, p)
                         == NumberAt(table0, p) + Waiting(batch0, p) + PairIn(preds - origins, succs, p)
      decreases |origins|
    {
      var a := Choose(origins);
      ghost var done := preds - origins;
      batch := AppendPairs(batch, a, succs);
      origins := origins - {a};
      assert preds - origins == done + {a};
      forall p ensures PairIn(done + {a}, succs, p) == PairIn(done, succs, p) + PairIn({a}, succs, p) {}
      if |batch| >= pairBatch {
        table := FlushPairs(table, batch);
        batch := [];
      }
    }
    assert preds - origins == preds;
  }

  /** The inner loop: appends (a, c) for every successor c other than a. */
  method AppendPairs(batch0: seq<Path>, a: Node, succs: set<Node>) returns (batch: seq<Path>)
    ensures forall p :: Waiting(batch, p) == Waiting(batch0, p) + PairIn({a}, succs, p)
  {
    batch := batch0;
    var dests := succs;
    while dests != {}
      invariant dests <= succs
      invariant forall p :: Waiting(batch, p) == Waiting(batch0, p) + PairIn({a}, succs - dests, p)
      decreases |dests|
    {
      var c := Choose(dests);
      dests := dests - {c};
      if a != c {
        batch := batch + [Path(a, c)];
      }
    }
    assert succs - dests == succs;
  }
}

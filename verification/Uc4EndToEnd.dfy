/** UC4 from end to end: however the transactions are batched, whatever the hashes, the numbers of
    peers and the order of delivery, the accounts answered are those of the reference program. */
module Uc4EndToEnd {
  import opened Common
  import opened Spill
  import opened Uc4Graph
  import opened GraphLedger
  import opened NodeRouting
  import opened Uc4GroupBy
  import GraphStage = Uc4AggregateGraphs
  import opened Uc4Degree
  import opened Uc4Prune
  import opened Uc4CountPaths
  import opened Uc4AggregatePaths
  import opened Uc4Join

  /** Everything one client's messages went through. The sequences indexed by peer hold what that
      peer received, in its order of arrival, and what it emitted. */
  datatype Run = Run(
    client: ClientId,
    batches: seq<seq<Edge>>,
    grouped: seq<seq<Routed<Graph>>>,
    graphIn: seq<seq<Graph>>,
    graphOut: seq<seq<Routed<Graph>>>,
    degreeIn: seq<seq<Graph>>,
    degreeOut: seq<HighDegree>,
    pruneLeft: seq<seq<HighDegree>>,
    pruneIn: seq<seq<Graph>>,
    pruneOut: seq<seq<Graph>>,
    countIn: seq<seq<Graph>>,
    countOut: seq<seq<Routed<PathCounts>>>,
    pathIn: seq<seq<PathCounts>>,
    pathOut: seq<seq<PathCounts>>,
    joinIn: seq<PathCounts>,
    accounts: set<Node>)

  /** The fixed hashes by which nodes and paths are routed. */
  datatype Hashes = Hashes(group: Node -> int, graph: Node -> int, path: Path -> int)

  /** Every message reaches exactly one peer, one its affinity selects. */
  ghost predicate RoutedTo<M(!new)>(outs: seq<Routed<M>>, ins: seq<seq<M>>) {
    && |ins| > 0
    && Delivered(Messages(outs), ins)
    && (forall k, m :: 0 <= k < |ins| && m in ins[k] ==>
          exists r :: r in outs && r.message == m && r.affinity % |ins| == k)
  }

  /** Each stage met its contract on what it received, and each hop delivered what was sent. */
  ghost predicate IsRun(h: Hashes, run: Run) {
    && |run.grouped| == |run.batches|
    && (forall i :: 0 <= i < |run.batches| ==> GroupResult(h.group, run.client, run.batches[i], run.grouped[i]))
    && RoutedTo(Flatten(run.grouped), run.graphIn)
    && RoutedTo(Flatten(run.grouped), run.degreeIn)
    && |run.graphOut| == |run.graphIn|
    && (forall k ::
          0 <= k < |run.graphIn| ==> GraphStage.GraphsResult(h.graph, run.client, run.graphIn[k], run.graphOut[k]))
    && |run.degreeOut| == |run.degreeIn|
    && (forall k :: 0 <= k < |run.degreeIn| ==> DegreeResult(run.client, run.degreeIn[k], run.degreeOut[k]))
    && RoutedTo(Flatten(run.graphOut), run.pruneIn)
    && |run.pruneLeft| == |run.pruneOut| == |run.pruneIn|
    && (forall k :: 0 <= k < |run.pruneIn| ==>
          && multiset(run.pruneLeft[k]) == multiset(run.degreeOut)
          && PruneResult(run.client, HiOut(run.pruneLeft[k]), HiIn(run.pruneLeft[k]), run.pruneIn[k], run.pruneOut[k]))
    && Delivered(Flatten(run.pruneOut), run.countIn)
    && |run.countOut| == |run.countIn|
    && (forall k :: 0 <= k < |run.countIn| ==> CountsResult(h.path, run.client, run.countIn[k], run.countOut[k]))
    && RoutedTo(Flatten(run.countOut), run.pathIn)
    && |run.pathOut| == |run.pathIn|
    && (forall k :: 0 <= k < |run.pathIn| ==> PathsResult(run.client, run.pathIn[k], run.pathOut[k]))
    && multiset(run.joinIn) == multiset(Flatten(run.pathOut))
    && EndpointsOf(run.accounts, iset p | p in PathsOf(run.joinIn))
  }

  function Edges(run: Run): seq<Edge> {
    Flatten(run.batches)
  }

  // ---- Hop by hop ----------------------------------------------------------------------------

  lemma SpreadConcat(a: seq<Routed<Graph>>, b: seq<Routed<Graph>>, n: Node)
    ensures Spread(a + b, n) == Join(Spread(a, n), Spread(b, n))
  {
    JoinOfConcat(InMessage(n), a, b);
  }

  /** The batches' messages together hold the whole neighbourhood of every node. */
  lemma {:induction false} SpreadOfBatches(hash: Node -> int, client: ClientId, batches: seq<seq<Edge>>,
                                           grouped: seq<seq<Routed<Graph>>>, n: Node)
    requires |grouped| == |batches|
    requires forall i :: 0 <= i < |batches| ==> GroupResult(hash, client, batches[i], grouped[i])
    ensures Spread(Flatten(grouped), n) == AdjacencyOf(Flatten(batches), n)
  {
    if batches != [] {
      SpreadOfBatches(hash, client, batches[1..], grouped[1..], n);
      SpreadConcat(grouped[0], Flatten(grouped[1..]), n);
      AdjacencyOfConcat(batches[0], Flatten(batches[1..]), n);
      assert GroupResult(hash, client, batches[0], grouped[0]);
    }
  }

  lemma BatchesByAffinity(hash: Node -> int, client: ClientId, batches: seq<seq<Edge>>,
                          grouped: seq<seq<Routed<Graph>>>, r: Routed<Graph>, n: Node)
    requires |grouped| == |batches|
    requires forall i :: 0 <= i < |batches| ==> GroupResult(hash, client, batches[i], grouped[i])
    requires r in Flatten(grouped) && n in r.message.nodes
    ensures r.affinity == hash(n) % Uc4GroupBy.AFFINITY_SHARDS
  {
    FlattenMember(grouped, r);
    var i :| 0 <= i < |grouped| && r in grouped[i];
    assert GroupResult(hash, client, batches[i], grouped[i]);
  }

  lemma RoutedMember<M(!new)>(outs: seq<Routed<M>>, ins: seq<seq<M>>, r: Routed<M>)
    requires RoutedTo(outs, ins) && r in outs
    ensures exists k :: 0 <= k < |ins| && r.message in ins[k]
  {
    var i :| 0 <= i < |outs| && outs[i] == r;
    assert Messages(outs)[i] in Messages(outs);
    DeliveredMember(Messages(outs), ins, r.message);
  }

  lemma RoutedSource<M(!new)>(outs: seq<Routed<M>>, ins: seq<seq<M>>, k: nat, m: M) returns (r: Routed<M>)
    requires RoutedTo(outs, ins) && k < |ins| && m in ins[k]
    ensures r in outs && r.message == m && r.affinity % |ins| == k
  {
    r :| r in outs && r.message == m && r.affinity % |ins| == k;
  }

  /** A node's partial neighbour sets all go to one peer, which therefore has the whole set. */
  lemma WholeAtOwner(outs: seq<Routed<Graph>>, ins: seq<seq<Graph>>, hash: int, n: Node, k: nat)
    requires RoutedTo(outs, ins) && k < |ins|
    requires forall r :: r in outs && n in r.message.nodes ==> r.affinity == hash
    ensures Merged(ins[k], n) == if k == hash % |ins| then Spread(outs, n) else NO_NEIGHBOURS
  {
    forall x
      ensures x in Merged(ins[k], n).preds <==> k == hash % |ins| && x in Spread(outs, n).preds
      ensures x in Merged(ins[k], n).succs <==> k == hash % |ins| && x in Spread(outs, n).succs
    {
      JoinOfMember(InGraph(n), ins[k], x);
      JoinOfMember(InMessage(n), outs, x);
      forall m | m in ins[k] && n in m.nodes
        ensures k == hash % |ins| && exists r :: r in outs && r.message == m
      {
        var r := RoutedSource(outs, ins, k, m);
      }
      forall r | r in outs && n in r.message.nodes
        ensures k == hash % |ins| ==> r.message in ins[k]
      {
        RoutedMember(outs, ins, r);
        var j :| 0 <= j < |ins| && r.message in ins[j];
        var source := RoutedSource(outs, ins, j, r.message);
      }
    }
  }

  lemma WholeNeighbourhood(h: Hashes, run: Run, ins: seq<seq<Graph>>, n: Node, k: nat)
    requires IsRun(h, run) && RoutedTo(Flatten(run.grouped), ins) && k < |ins|
    ensures Merged(ins[k], n) ==
            if k == h.group(n) % Uc4GroupBy.AFFINITY_SHARDS % |ins| then AdjacencyOf(Edges(run), n) else NO_NEIGHBOURS
  {
    SpreadOfBatches(h.group, run.client, run.batches, run.grouped, n);
    forall r | r in Flatten(run.grouped) && n in r.message.nodes
      ensures r.affinity == h.group(n) % Uc4GroupBy.AFFINITY_SHARDS
    {
      BatchesByAffinity(h.group, run.client, run.batches, run.grouped, r, n);
    }
    WholeAtOwner(Flatten(run.grouped), ins, h.group(n) % Uc4GroupBy.AFFINITY_SHARDS, n, k);
  }

  // ---- The graph branch ------------------------------------------------------------------------

  /** Messages whose nodes carry whole neighbourhoods, every relevant node once. */
  ghost predicate WholeGraph(edges: seq<Edge>, graphs: seq<Graph>) {
    && (forall g, n :: g in graphs && n in g.nodes && Relevant(g.nodes[n]) ==> g.nodes[n] == AdjacencyOf(edges, n))
    && (forall n :: Appearances(graphs, n) == if Relevant(AdjacencyOf(edges, n)) then 1 else 0)
  }

  /** A peer's emissions: the relevant nodes are those it owns. */
  lemma OwnedNodes(h: Hashes, run: Run, k: nat, r: Routed<Graph>, n: Node)
    requires IsRun(h, run) && k < |run.graphIn| && r in run.graphOut[k] && n in r.message.nodes
    ensures r.message.nodes[n] ==
            if k == h.group(n) % Uc4GroupBy.AFFINITY_SHARDS % |run.graphIn| then AdjacencyOf(Edges(run), n)
              else NO_NEIGHBOURS
  {
    assert GraphStage.GraphsResult(h.graph, run.client, run.graphIn[k], run.graphOut[k]);
    assert GraphStage.WholeNodes(h.graph, run.client, run.graphIn[k], r);
    WholeNeighbourhood(h, run, run.graphIn, n, k);
  }

  lemma {:induction false} RelevantOccurrences(outs: seq<Routed<Graph>>, n: Node, full: Adjacency)
    requires forall r :: r in outs && n in r.message.nodes ==> r.message.nodes[n] == full
    ensures Appearances(Messages(outs), n) == if Relevant(full) then Occurrences(outs, n) else 0
  {
    if outs != [] {
      RelevantOccurrences(outs[1..], n, full);
      assert outs[0] in outs;
      assert Messages(outs)[1..] == Messages(outs[1..]);
    }
  }

  lemma MessagesConcat<M>(a: seq<Routed<M>>, b: seq<Routed<M>>)
    ensures Messages(a + b) == Messages(a) + Messages(b)
  {}

  /** Appearances of n over the emissions of the peers from k on. */
  lemma {:induction false} AppearancesFrom(h: Hashes, run: Run, n: Node, k: nat)
    requires IsRun(h, run) && k <= |run.graphOut|
    ensures Appearances(Messages(Flatten(run.graphOut[k..])), n) ==
            if Relevant(AdjacencyOf(Edges(run), n))
              && k <= h.group(n) % Uc4GroupBy.AFFINITY_SHARDS % |run.graphIn| then 1 else 0
    decreases |run.graphOut| - k
  {
    if k < |run.graphOut| {
      AppearancesFrom(h, run, n, k + 1);
      var owner := h.group(n) % Uc4GroupBy.AFFINITY_SHARDS % |run.graphIn|;
      var here, rest := run.graphOut[k], Flatten(run.graphOut[k + 1..]);
      assert run.graphOut[k..][0] == here && run.graphOut[k..][1..] == run.graphOut[k + 1..];
      MessagesConcat(here, rest);
      SumOfConcat(HoldsNode(n), Messages(here), Messages(rest));
      forall r | r in here && n in r.message.nodes
        ensures r.message.nodes[n] == if k == owner then AdjacencyOf(Edges(run), n) else NO_NEIGHBOURS
      {
        OwnedNodes(h, run, k, r, n);
      }
      RelevantOccurrences(here, n, if k == owner then AdjacencyOf(Edges(run), n) else NO_NEIGHBOURS);
      WholeNeighbourhood(h, run, run.graphIn, n, k);
      assert GraphStage.GraphsResult(h.graph, run.client, run.graphIn[k], here);
    }
  }

  lemma GraphBranch(h: Hashes, run: Run)
    requires IsRun(h, run)
    ensures WholeGraph(Edges(run), Messages(Flatten(run.graphOut)))
  {
    var outs := Flatten(run.graphOut);
    assert run.graphOut[0..] == run.graphOut;
    forall n { AppearancesFrom(h, run, n, 0); }
    forall g: Graph, n | g in Messages(outs) && n in g.nodes && Relevant(g.nodes[n])
      ensures g.nodes[n] == AdjacencyOf(Edges(run), n)
    {
      var i :| 0 <= i < |outs| && Messages(outs)[i] == g;
      FlattenMember(run.graphOut, outs[i]);
      var k :| 0 <= k < |run.graphOut| && outs[i] in run.graphOut[k];
      OwnedNodes(h, run, k, outs[i], n);
    }
  }

  /** The nodes that carry p in some message. */
  ghost function CarriedBy(graphs: seq<Graph>, p: Path): set<Node> {
    set g, n | g in graphs && n in Carriers(g.nodes, p) :: n
  }

  /** When no relevant node appears twice, hits are carriers, each counted once. */
  lemma {:induction false} HitsAreCarriers(graphs: seq<Graph>, p: Path)
    requires p.origin != p.destination
    requires forall n :: Appearances(graphs, n) <= 1
    ensures Hits(graphs, p) == |CarriedBy(graphs, p)|
  {
    if graphs == [] {
      assert CarriedBy(graphs, p) == {};
    } else {
      var g, rest := graphs[0], graphs[1..];
      assert graphs == [g] + rest;
      forall n ensures Appearances(rest, n) <= 1 {
        assert Appearances(graphs, n) <= 1;
      }
      HitsAreCarriers(rest, p);
      forall n | n in Carriers(g.nodes, p) ensures n !in CarriedBy(rest, p) {
        assert Appearances(graphs, n) <= 1;
        if n in CarriedBy(rest, p) {
          var other :| other in rest && n in Carriers(other.nodes, p);
          SumOfMember(HoldsNode(n), rest, other);
          assert false;
        }
      }
      forall n ensures n in CarriedBy(graphs, p) <==> n in Carriers(g.nodes, p) || n in CarriedBy(rest, p) {
        assert g in graphs;
      }
      assert CarriedBy(graphs, p) == Carriers(g.nodes, p) + CarriedBy(rest, p);
    }
  }

  lemma CarriedByIntermediaries(edges: seq<Edge>, graphs: seq<Graph>, p: Path)
    requires WholeGraph(edges, graphs)
    ensures CarriedBy(graphs, p) == Intermediaries(edges, p)
  {
    forall n ensures n in CarriedBy(graphs, p) <==> n in Intermediaries(edges, p) {
      if n in CarriedBy(graphs, p) {
        var g :| g in graphs && n in Carriers(g.nodes, p);
        assert g.nodes[n] == AdjacencyOf(edges, n);
        assert Edge(p.origin, n) in edges && Edge(n, p.destination) in edges;
      }
      if n in Intermediaries(edges, p) {
        assert Edge(p.origin, n) in edges && Edge(n, p.destination) in edges;
        assert p.origin in AdjacencyOf(edges, n).preds && p.destination in AdjacencyOf(edges, n).succs;
        if forall g :: g in graphs ==> !Relevant(AdjacencyAt(g.nodes, n)) {
          SumOfZero(HoldsNode(n), graphs);
          assert false;
        }
        var g :| g in graphs && Relevant(AdjacencyAt(g.nodes, n));
        assert n in Carriers(g.nodes, p);
      }
    }
  }

  /** The number of times a path is hit in the whole graph is its number of intermediaries. */
  lemma HitsOfWholeGraph(edges: seq<Edge>, graphs: seq<Graph>, p: Path)
    requires WholeGraph(edges, graphs)
    ensures Hits(graphs, p) == if p.origin == p.destination then 0 else |Intermediaries(edges, p)|
  {
    if p.origin == p.destination {
      forall g | g in graphs ensures WeightOf(p)(g) == 0 {}
      SumOfZero(WeightOf(p), graphs);
    } else {
      forall n ensures Appearances(graphs, n) <= 1 {}
      HitsAreCarriers(graphs, p);
      CarriedByIntermediaries(edges, graphs, p);
    }
  }

  // ---- The degree branch -----------------------------------------------------------------------

  lemma DegreeBranch(h: Hashes, run: Run, k: nat, n: Node)
    requires IsRun(h, run) && k < |run.pruneIn|
    ensures n in HiOut(run.pruneLeft[k]) <==> |Succs(Edges(run), n)| >= MIN_DEGREE
    ensures n in HiIn(run.pruneLeft[k]) <==> |Preds(Edges(run), n)| >= MIN_DEGREE
  {
    var owner := h.group(n) % Uc4GroupBy.AFFINITY_SHARDS % |run.degreeIn|;
    forall m ensures m in run.pruneLeft[k] <==> m in run.degreeOut {
      assert m in run.pruneLeft[k] <==> m in multiset(run.pruneLeft[k]);
      assert m in run.degreeOut <==> m in multiset(run.degreeOut);
    }
    forall j | 0 <= j < |run.degreeIn|
      ensures n in run.degreeOut[j].hiOut <==> j == owner && |Succs(Edges(run), n)| >= MIN_DEGREE
      ensures n in run.degreeOut[j].hiIn <==> j == owner && |Preds(Edges(run), n)| >= MIN_DEGREE
    {
      WholeNeighbourhood(h, run, run.degreeIn, n, j);
      assert DegreeResult(run.client, run.degreeIn[j], run.degreeOut[j]);
    }
    assert run.degreeOut[owner] in run.degreeOut;
  }

  /** Degree pruning preserves the answer: no count is raised, and a path with five intermediaries,
      whose ends have degree five, loses nothing; a path that loses anything had fewer. */
  lemma PruningPreservesAnswer(edges: seq<Edge>, client: ClientId, hiOut: set<Node>, hiIn: set<Node>, whole: seq<Graph>,
                               outs: seq<Graph>, p: Path)
    requires forall n :: n in hiOut <==> |Succs(edges, n)| >= MIN_DEGREE
    requires forall n :: n in hiIn <==> |Preds(edges, n)| >= MIN_DEGREE
    requires WholeGraph(edges, whole) && PruneResult(client, hiOut, hiIn, whole, outs)
    ensures Hits(outs, p) <= Hits(whole, p)
    ensures |Intermediaries(edges, p)| >= MIN_PATH_COUNT ==> Hits(outs, p) == Hits(whole, p)
    ensures Hits(outs, p) != Hits(whole, p) ==> Hits(whole, p) < MIN_PATH_COUNT
  {
    HitsOfWholeGraph(edges, whole, p);
    assert forall n :: Appearances(whole, n) <= 1;
    SubsetOfSameSize(Intermediaries(edges, p), Succs(edges, p.origin));
    SubsetOfSameSize(Intermediaries(edges, p), Preds(edges, p.destination));
    hide Hits, Intermediaries, Succs, Preds, Appearances;
  }

  // ---- From the merge to the end -----------------------------------------------------------------

  ghost predicate DegreeKept(edges: seq<Edge>, p: Path) {
    |Succs(edges, p.origin)| >= MIN_DEGREE && |Preds(edges, p.destination)| >= MIN_DEGREE
  }

  lemma PeerAppearances(run: Run, edges: seq<Edge>, k: nat, n: Node)
    requires k < |run.pruneIn|
    requires WholeGraph(edges, Messages(Flatten(run.graphOut)))
    requires RoutedTo(Flatten(run.graphOut), run.pruneIn)
    ensures Appearances(run.pruneIn[k], n) <= 1
  {
    SumOfPart(HoldsNode(n), run.pruneIn, k);
    DeliveredSum(HoldsNode(n), Messages(Flatten(run.graphOut)), run.pruneIn);
    assert Appearances(Messages(Flatten(run.graphOut)), n) <= 1;
  }

  lemma {:induction false} HitsOfPeers(ins: seq<seq<Graph>>, outs: seq<seq<Graph>>, p: Path, kept: bool)
    requires |ins| == |outs|
    requires forall k :: 0 <= k < |ins| ==> Hits(outs[k], p) == if kept then Hits(ins[k], p) else 0
    ensures Hits(Flatten(outs), p) == if kept then Hits(Flatten(ins), p) else 0
  {
    if ins != [] {
      HitsOfPeers(ins[1..], outs[1..], p, kept);
      HitsConcat(ins[0], Flatten(ins[1..]), p);
      HitsConcat(outs[0], Flatten(outs[1..]), p);
    }
  }

  /** What the prune peers emit together. */
  lemma MergeBranch(h: Hashes, run: Run, p: Path)
    requires IsRun(h, run)
    ensures Hits(Flatten(run.pruneOut), p) ==
            if p.origin != p.destination && DegreeKept(Edges(run), p) then |Intermediaries(Edges(run), p)| else 0
  {
    GraphBranch(h, run);
    var whole := Messages(Flatten(run.graphOut));
    HitsOfWholeGraph(Edges(run), whole, p);
    DeliveredSum(WeightOf(p), whole, run.pruneIn);
    forall k | 0 <= k < |run.pruneIn|
      ensures Hits(run.pruneOut[k], p) == if DegreeKept(Edges(run), p) then Hits(run.pruneIn[k], p) else 0
    {
      forall n { PeerAppearances(run, Edges(run), k, n); }
      DegreeBranch(h, run, k, p.origin);
      DegreeBranch(h, run, k, p.destination);
      assert PruneResult(run.client, HiOut(run.pruneLeft[k]), HiIn(run.pruneLeft[k]), run.pruneIn[k], run.pruneOut[k]);
    }
    HitsOfPeers(run.pruneIn, run.pruneOut, p, DegreeKept(Edges(run), p));
  }

  lemma {:induction false} EmittedOfPeers(hash: Path -> int, client: ClientId, ins: seq<seq<Graph>>,
                                          outs: seq<seq<Routed<PathCounts>>>, p: Path)
    requires |ins| == |outs|
    requires forall k :: 0 <= k < |ins| ==> CountsResult(hash, client, ins[k], outs[k])
    ensures Emitted(Flatten(outs), p) == Hits(Flatten(ins), p)
  {
    if ins != [] {
      EmittedOfPeers(hash, client, ins[1..], outs[1..], p);
      HitsConcat(ins[0], Flatten(ins[1..]), p);
      EmittedConcat(outs[0], Flatten(outs[1..]), p);
      assert CountsResult(hash, client, ins[0], outs[0]);
    }
  }

  lemma {:induction false} TotalOfMessages(outs: seq<Routed<PathCounts>>, p: Path)
    ensures Total(Messages(outs), p) == Emitted(outs, p)
  {
    if outs != [] {
      TotalOfMessages(outs[1..], p);
      assert Messages(outs)[1..] == Messages(outs[1..]);
    }
  }

  lemma {:induction false} SumOfOnly<T(!new)>(f: T -> nat, ss: seq<seq<T>>, i: nat)
    requires i < |ss|
    requires forall j :: 0 <= j < |ss| && j != i ==> SumOf(f, ss[j]) == 0
    ensures SumOf(f, Flatten(ss)) == SumOf(f, ss[i])
  {
    SumOfConcat(f, ss[0], Flatten(ss[1..]));
    if i == 0 {
      SumOfNone(f, ss[1..]);
    } else {
      SumOfOnly(f, ss[1..], i - 1);
    }
  }

  lemma {:induction false} SumOfNone<T(!new)>(f: T -> nat, ss: seq<seq<T>>)
    requires forall j :: 0 <= j < |ss| ==> SumOf(f, ss[j]) == 0
    ensures SumOf(f, Flatten(ss)) == 0
  {
    if ss != [] {
      SumOfNone(f, ss[1..]);
      SumOfConcat(f, ss[0], Flatten(ss[1..]));
    }
  }

  /** All the partial counts of a path go to one peer, which therefore has the whole count. */
  lemma PathCountAtOwner(h: Hashes, run: Run, p: Path, k: nat)
    requires IsRun(h, run) && k < |run.pathIn|
    ensures Total(run.pathIn[k], p) ==
            if k == h.path(p) % Uc4CountPaths.AFFINITY_SHARDS % |run.pathIn| then Hits(Flatten(run.pruneOut), p) else 0
  {
    var owner := h.path(p) % Uc4CountPaths.AFFINITY_SHARDS % |run.pathIn|;
    var outs := Flatten(run.countOut);
    forall j | 0 <= j < |run.pathIn| && j != owner ensures Total(run.pathIn[j], p) == 0 {
      forall m | m in run.pathIn[j] ensures CountOf(p)(m) == 0 {
        var r := RoutedSource(outs, run.pathIn, j, m);
        FlattenMember(run.countOut, r);
        var i :| 0 <= i < |run.countOut| && r in run.countOut[i];
        assert CountsResult(h.path, run.client, run.countIn[i], run.countOut[i]);
        assert FullCounts(h.path, run.countIn[i], r);
      }
      SumOfZero(CountOf(p), run.pathIn[j]);
    }
    SumOfOnly(CountOf(p), run.pathIn, owner);
    DeliveredSum(CountOf(p), Messages(outs), run.pathIn);
    TotalOfMessages(outs, p);
    EmittedOfPeers(h.path, run.client, run.countIn, run.countOut, p);
    DeliveredSum(WeightOf(p), Flatten(run.pruneOut), run.countIn);
  }

  /** One path aggregator emits p exactly when it owns p and p is frequent enough. */
  lemma PathPeer(h: Hashes, run: Run, p: Path, k: nat)
    requires IsRun(h, run) && k < |run.pathIn|
    ensures p in PathsOf(run.pathOut[k]) <==>
            k == h.path(p) % Uc4CountPaths.AFFINITY_SHARDS % |run.pathIn|
              && Hits(Flatten(run.pruneOut), p) >= MIN_PATH_COUNT
  {
    EmittedKeys(run.client, run.pathIn[k], run.pathOut[k], p);
    PathCountAtOwner(h, run, p, k);
  }

  lemma PathsOfPeers(joinIn: seq<PathCounts>, outs: seq<seq<PathCounts>>, p: Path)
    requires multiset(joinIn) == multiset(Flatten(outs))
    ensures p in PathsOf(joinIn) <==> exists k :: 0 <= k < |outs| && p in PathsOf(outs[k])
  {
    forall m ensures m in joinIn <==> exists k :: 0 <= k < |outs| && m in outs[k] {
      assert m in joinIn <==> m in multiset(joinIn);
      assert m in Flatten(outs) <==> m in multiset(Flatten(outs));
      FlattenMember(outs, m);
    }
  }

  lemma JoinedPaths(h: Hashes, run: Run, p: Path)
    requires IsRun(h, run)
    ensures p in PathsOf(run.joinIn) <==> Hits(Flatten(run.pruneOut), p) >= MIN_PATH_COUNT
  {
    PathsOfPeers(run.joinIn, run.pathOut, p);
    var owner := h.path(p) % Uc4CountPaths.AFFINITY_SHARDS % |run.pathIn|;
    assert |run.pathOut| == |run.pathIn|;
    forall k | 0 <= k < |run.pathIn| { PathPeer(h, run, p, k); }
    hide IsRun, PathsOf, Hits;
    assert p in PathsOf(run.pathOut[owner]) <==> Hits(Flatten(run.pruneOut), p) >= MIN_PATH_COUNT;
  }

  /** The paths that reach the join are exactly the qualifying ones. */
  lemma JoinedPathsQualify(h: Hashes, run: Run, p: Path)
    requires IsRun(h, run)
    ensures p in PathsOf(run.joinIn) <==> Qualifies(Edges(run), p)
  {
    JoinedPaths(h, run, p);
    MergeBranch(h, run, p);
    SubsetOfSameSize(Intermediaries(Edges(run), p), Succs(Edges(run), p.origin));
    SubsetOfSameSize(Intermediaries(Edges(run), p), Preds(Edges(run), p.destination));
  }

  /** The pipeline answers with the accounts of the reference program. */
  lemma PipelineAnswers(h: Hashes, run: Run)
    requires IsRun(h, run)
    ensures IsAnswer(Edges(run), run.accounts)
  {
    forall p ensures p in PathsOf(run.joinIn) <==> Qualifies(Edges(run), p) {
      JoinedPathsQualify(h, run, p);
    }
    hide IsRun, PathsOf, Qualifies;
    assert (iset p | p in PathsOf(run.joinIn)) == (iset p | Qualifies(Edges(run), p));
  }
}

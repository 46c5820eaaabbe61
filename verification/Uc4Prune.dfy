/** UC4PruneMergeFn: joins the whole graph (right) with the high-degree sets (left). Every node's
    predecessors are cut down to sources of high out-degree and its successors to destinations of
    high in-degree; hubs are tiled and the rest is batched. */
module Uc4Prune {
  import opened Common
  import opened Spill
  import opened Uc4Graph
  import opened GraphLedger
  import opened Uc4Tiles

  const SPLIT_THRESHOLD := 250_000
  const CHUNK_SIZE := 50_000

  // ---- Meaning of the two inputs -----------------------------------------------------------

  /** The union of the high-degree sets received. */
  ghost function HiOut(lefts: seq<HighDegree>): set<Node> {
    set m, n | m in lefts && n in m.hiOut :: n
  }

  ghost function HiIn(lefts: seq<HighDegree>): set<Node> {
    set m, n | m in lefts && n in m.hiIn :: n
  }

  /** A node with predecessors on one side only lies on no path. */
  ghost predicate Relevant(a: Adjacency) {
    a.preds != {} && a.succs != {}
  }

  ghost function HoldsNode(n: Node): Graph -> nat {
    (g: Graph) => if Relevant(AdjacencyAt(g.nodes, n)) then 1 else 0
  }

  /** In how many graph messages a node appears with neighbours on both sides. */
  ghost function Appearances(graphs: seq<Graph>, n: Node): nat {
    SumOf(HoldsNode(n), graphs)
  }

  ghost function LinePair(p: Path): Line -> nat {
    (line: Line) => PairIn(line.adjacency.preds, line.adjacency.succs, p)
  }

  ghost function LineOf(n: Node): Line -> nat {
    (line: Line) => if line.node == n && Relevant(line.adjacency) then 1 else 0
  }

  /** In how many lines the pair p appears. */
  ghost function LinePairs(lines: seq<Line>, p: Path): nat {
    SumOf(LinePair(p), lines)
  }

  ghost function LineCount(lines: seq<Line>, n: Node): nat {
    SumOf(LineOf(n), lines)
  }

  lemma LinesSnoc(lines: seq<Line>, line: Line)
    ensures forall p ::
              LinePairs(lines + [line], p)
              == LinePairs(lines, p) + PairIn(line.adjacency.preds, line.adjacency.succs, p)
    ensures forall n ::
              LineCount(lines + [line], n)
              == LineCount(lines, n) + (if line.node == n && Relevant(line.adjacency) then 1 else 0)
  {
    forall p
      ensures LinePairs(lines + [line], p)
      == LinePairs(lines, p) + PairIn(line.adjacency.preds, line.adjacency.succs, p)
    {
      SumOfConcat(LinePair(p), lines, [line]);
      SumOfOne(LinePair(p), line);
    }
    forall n
      ensures LineCount(lines + [line], n)
      == LineCount(lines, n) + (if line.node == n && Relevant(line.adjacency) then 1 else 0)
    {
      SumOfConcat(LineOf(n), lines, [line]);
      SumOfOne(LineOf(n), line);
    }
  }

  lemma AppearancesSnoc(graphs: seq<Graph>, g: Graph, n: Node)
    ensures Appearances(graphs + [g], n)
            == Appearances(graphs, n) + (if Relevant(AdjacencyAt(g.nodes, n)) then 1 else 0)
  {
    SumOfConcat(HoldsNode(n), graphs, [g]);
    SumOfOne(HoldsNode(n), g);
  }

  /** The file of spilled lines says the same as the graph messages it was written from and the lines
      that earlier crashes left in it. */
  ghost predicate Records(lines: seq<Line>, rights: seq<Graph>, extra: seq<Line>) {
    && (forall p :: LinePairs(lines, p) == Hits(rights, p) + LinePairs(extra, p))
    && (forall n :: LineCount(lines, n) == Appearances(rights, n) + LineCount(extra, n))
  }

  /** One client's state: the union of the sets received and the lines of the graphs received. */
  ghost predicate Joined(out: set<Node>, into: set<Node>, lefts: seq<HighDegree>, lines: seq<Line>, rights: seq<Graph>,
                         extra: seq<Line>)
  {
    out == HiOut(lefts) && into == HiIn(lefts) && Records(lines, rights, extra)
  }

  lemma JoinedNothing()
    ensures Joined({}, {}, [], [], [], [])
  {
    assert HiOut([]) == {} == HiIn([]);
  }

  lemma JoinedLeft(out: set<Node>, into: set<Node>, lefts: seq<HighDegree>, lines: seq<Line>, rights: seq<Graph>,
                   extra: seq<Line>, msg: HighDegree)
    requires Joined(out, into, lefts, lines, rights, extra)
    ensures Joined(out + msg.hiOut, into + msg.hiIn, lefts + [msg], lines, rights, extra)
  {
    hide Records;
    assert forall m :: m in lefts + [msg] <==> m in lefts || m == msg;
    forall n ensures n in HiOut(lefts + [msg]) <==> n in HiOut(lefts) || n in msg.hiOut {
      assert msg in lefts + [msg];
    }
    forall n ensures n in HiIn(lefts + [msg]) <==> n in HiIn(lefts) || n in msg.hiIn {
      assert msg in lefts + [msg];
    }
  }

  lemma JoinedRight(out: set<Node>, into: set<Node>, lefts: seq<HighDegree>, lines: seq<Line>, rights: seq<Graph>,
                    extra: seq<Line>, msg: Graph, after: seq<Line>)
    requires Joined(out, into, lefts, lines, rights, extra)
    requires forall p :: LinePairs(after, p) == LinePairs(lines, p) + Weight(msg, p)
    requires forall n ::
               LineCount(after, n) == LineCount(lines, n) + (if Relevant(AdjacencyAt(msg.nodes, n)) then 1 else 0)
    ensures Joined(out, into, lefts, after, rights + [msg], extra)
  {
    forall p { HitsSnoc(rights, msg, p); }
    forall n { AppearancesSnoc(rights, msg, n); }
    hide LinePairs, LineCount, Hits, Appearances, Weight, HiOut, HiIn;
  }

  lemma LinesConcat(lines: seq<Line>, more: seq<Line>)
    ensures forall p :: LinePairs(lines + more, p) == LinePairs(lines, p) + LinePairs(more, p)
    ensures forall n :: LineCount(lines + more, n) == LineCount(lines, n) + LineCount(more, n)
  {
    forall p ensures LinePairs(lines + more, p) == LinePairs(lines, p) + LinePairs(more, p) {
      SumOfConcat(LinePair(p), lines, more);
    }
    forall n ensures LineCount(lines + more, n) == LineCount(lines, n) + LineCount(more, n) {
      SumOfConcat(LineOf(n), lines, more);
    }
  }

  lemma JoinedKept(out: set<Node>, into: set<Node>, lefts: seq<HighDegree>, lines: seq<Line>, rights: seq<Graph>,
                   extra: seq<Line>, kept: seq<Line>)
    requires Joined(out, into, lefts, lines, rights, extra)
    ensures Joined(out, into, lefts, lines + kept, rights, extra + kept)
  {
    hide HiOut, HiIn, Hits, Appearances;
    LinesConcat(lines, kept);
    LinesConcat(extra, kept);
    hide LinePairs, LineCount;
  }

  ghost predicate OneSided(lines: seq<Line>) {
    forall line :: line in lines ==> !Relevant(line.adjacency)
  }

  /** Exactly the lines of nodes with neighbours on both sides make a difference. */
  lemma RecordsAlone(lines: seq<Line>, rights: seq<Graph>, extra: seq<Line>)
    requires Records(lines, rights, extra)
    ensures Records(lines, rights, []) <==> OneSided(extra)
  {
    if OneSided(extra) {
      OneSidedCountsNothing(extra);
    } else {
      var line :| line in extra && Relevant(line.adjacency);
      CountsALine(extra, line);
      assert LineCount([], line.node) == 0;
    }
  }

  lemma OneSidedCountsNothing(extra: seq<Line>)
    requires OneSided(extra)
    ensures forall p :: LinePairs(extra, p) == 0
    ensures forall n :: LineCount(extra, n) == 0
  {
    forall p ensures LinePairs(extra, p) == 0 {
      SumOfZero(LinePair(p), extra);
    }
    forall n ensures LineCount(extra, n) == 0 {
      SumOfZero(LineOf(n), extra);
    }
  }

  lemma {:induction false} CountsALine(extra: seq<Line>, line: Line)
    requires line in extra && Relevant(line.adjacency)
    ensures LineCount(extra, line.node) >= 1
  {
    if extra[0] != line {
      CountsALine(extra[1..], line);
    }
  }

  /** A path is kept when its origin has high out-degree and its destination high in-degree. */
  ghost predicate Kept(hiOut: set<Node>, hiIn: set<Node>, p: Path) {
    p.origin in hiOut && p.destination in hiIn
  }

  /** What pruning must do to the path counts: no count is ever raised, a path that is not kept
      loses its whole count, and if no node arrived twice with neighbours on both sides a kept path
      loses nothing. */
  ghost predicate PruneResult(client: ClientId, hiOut: set<Node>, hiIn: set<Node>, rights: seq<Graph>, outs: seq<Graph>)
  {
    && (forall g :: g in outs ==> g.client == client)
    && (forall p :: Hits(outs, p) <= if Kept(hiOut, hiIn, p) then Hits(rights, p) else 0)
    && ((forall n :: Appearances(rights, n) <= 1) ==>
          forall p :: Hits(outs, p) == if Kept(hiOut, hiIn, p) then Hits(rights, p) else 0)
  }

  /** The same when earlier crashes left lines in the file. */
  ghost predicate PruneBeside(client: ClientId, hiOut: set<Node>, hiIn: set<Node>, rights: seq<Graph>, extra: seq<Line>,
                              outs: seq<Graph>)
  {
    && (forall g :: g in outs ==> g.client == client)
    && (forall p :: Hits(outs, p) <= if Kept(hiOut, hiIn, p) then Hits(rights, p) + LinePairs(extra, p) else 0)
    && ((forall n :: Appearances(rights, n) + LineCount(extra, n) <= 1) ==>
          forall p :: Hits(outs, p) == if Kept(hiOut, hiIn, p) then Hits(rights, p) + LinePairs(extra, p) else 0)
  }

  lemma PruneAlone(client: ClientId, hiOut: set<Node>, hiIn: set<Node>, rights: seq<Graph>, extra: seq<Line>,
                   outs: seq<Graph>)
    requires PruneBeside(client, hiOut, hiIn, rights, extra, outs) && OneSided(extra)
    ensures PruneResult(client, hiOut, hiIn, rights, outs)
  {
    OneSidedCountsNothing(extra);
    hide Hits, Appearances, LinePairs, LineCount, OneSided;
  }

  /** What a line counts for p if it is that of a hub, which is tiled. */
  ghost function HubPair(threshold: nat, hiOut: set<Node>, hiIn: set<Node>, p: Path): Line -> nat {
    (line: Line) =>
      var preds, succs := line.adjacency.preds * hiOut, line.adjacency.succs * hiIn;
      if |preds| * |succs| > threshold then PairIn(preds, succs, p) else 0
  }

  ghost function HubPairs(threshold: nat, hiOut: set<Node>, hiIn: set<Node>, lines: seq<Line>, p: Path): nat {
    SumOf(HubPair(threshold, hiOut, hiIn, p), lines)
  }

  /** Every line of a hub has been sent, also when the node was there before: tiles are never overwritten. */
  ghost predicate HubsSent(threshold: nat, hiOut: set<Node>, hiIn: set<Node>, lines: seq<Line>, outs: seq<Graph>) {
    forall p :: HubPairs(threshold, hiOut, hiIn, lines, p) <= Hits(outs, p)
  }

  lemma HubsSentMore(threshold: nat, hiOut: set<Node>, hiIn: set<Node>, lines: seq<Line>, outs: seq<Graph>, line: Line,
                     more: seq<Graph>)
    requires HubsSent(threshold, hiOut, hiIn, lines, outs)
    requires forall p :: HubPair(threshold, hiOut, hiIn, p)(line) <= Hits(more, p)
    ensures HubsSent(threshold, hiOut, hiIn, lines + [line], outs + more)
  {
    forall p ensures HubPairs(threshold, hiOut, hiIn, lines + [line], p) <= Hits(outs + more, p) {
      assert HubPairs(threshold, hiOut, hiIn, lines, p) <= Hits(outs, p);
      SumOfConcat(HubPair(threshold, hiOut, hiIn, p), lines, [line]);
      SumOfOne(HubPair(threshold, hiOut, hiIn, p), line);
      HitsConcat(outs, more, p);
      hide Hits, SumOf, HubPair;
    }
  }

  lemma HubsSentFlush(threshold: nat, hiOut: set<Node>, hiIn: set<Node>, lines: seq<Line>, outs: seq<Graph>, g: Graph)
    requires HubsSent(threshold, hiOut, hiIn, lines, outs)
    ensures HubsSent(threshold, hiOut, hiIn, lines, outs + [g])
  {
    forall p { HitsConcat(outs, [g], p); }
    hide Hits, HubPairs;
  }

  // ---- The messages of both sides ------------------------------------------------------------

  /** A message of either input. */
  datatype Side = OfDegrees(degrees: HighDegree) | OfGraph(graph: Graph)

  ghost function DegreesOf(client: ClientId, msg: Side): seq<HighDegree> {
    if msg.OfDegrees? && msg.degrees.client == client then [msg.degrees] else []
  }

  ghost function GraphsOf(client: ClientId, msg: Side): seq<Graph> {
    if msg.OfGraph? && msg.graph.client == client then [msg.graph] else []
  }

  ghost function DegreesFor(client: ClientId, msgs: seq<Side>): seq<HighDegree> {
    if msgs == [] then [] else DegreesFor(client, msgs[..|msgs| - 1]) + DegreesOf(client, msgs[|msgs| - 1])
  }

  ghost function GraphsFor(client: ClientId, msgs: seq<Side>): seq<Graph> {
    if msgs == [] then [] else GraphsFor(client, msgs[..|msgs| - 1]) + GraphsOf(client, msgs[|msgs| - 1])
  }

  lemma OneMoreForAll(msgs: seq<Side>, msg: Side)
    ensures forall cl :: DegreesFor(cl, msgs + [msg]) == DegreesFor(cl, msgs) + DegreesOf(cl, msg)
    ensures forall cl :: GraphsFor(cl, msgs + [msg]) == GraphsFor(cl, msgs) + GraphsOf(cl, msg)
  {
    assert (msgs + [msg])[..|msgs|] == msgs;
  }

  // ---- The loop over the lines ---------------------------------------------------------------

  ghost function KeptPairs(hiOut: set<Node>, hiIn: set<Node>, lines: seq<Line>, p: Path): nat {
    if Kept(hiOut, hiIn, p) then LinePairs(lines, p) else 0
  }

  ghost predicate NoDuplicates(lines: seq<Line>) {
    forall n :: LineCount(lines, n) <= 1
  }

  ghost function Produced(client: ClientId, outs: seq<Graph>, batch: map<Node, Adjacency>, p: Path): nat {
    Hits(outs, p) + Weight(Graph(client, batch), p)
  }

  /** State of the loop once `lines` have been read: emitted messages and the pending batch. */
  ghost predicate SoFar(client: ClientId, hiOut: set<Node>, hiIn: set<Node>, lines: seq<Line>, outs: seq<Graph>,
                        batch: map<Node, Adjacency>)
  {
    && (forall g :: g in outs ==> g.client == client)
    && (forall p :: Produced(client, outs, batch, p) <= KeptPairs(hiOut, hiIn, lines, p))
    && (NoDuplicates(lines) ==> forall p :: Produced(client, outs, batch, p) == KeptPairs(hiOut, hiIn, lines, p))
    && (forall n :: n in batch ==> LineCount(lines, n) >= 1)
  }

  /** `more` is what one pruned line adds to every path. */
  ghost predicate Adds(hiOut: set<Node>, hiIn: set<Node>, line: Line, p: Path, more: nat) {
    more == if Kept(hiOut, hiIn, p) then PairIn(line.adjacency.preds, line.adjacency.succs, p) else 0
  }

  lemma PrunedPair(hiOut: set<Node>, hiIn: set<Node>, line: Line, p: Path)
    ensures Adds(hiOut, hiIn, line, p, PairIn(line.adjacency.preds * hiOut, line.adjacency.succs * hiIn, p))
  {}

  lemma DuplicatesPrefix(lines: seq<Line>, line: Line)
    requires NoDuplicates(lines + [line])
    ensures NoDuplicates(lines) && (Relevant(line.adjacency) ==> LineCount(lines, line.node) == 0)
  {
    LinesSnoc(lines, line);
    forall n ensures LineCount(lines, n) <= 1 {
      assert LineCount(lines + [line], n) <= 1;
    }
    assert LineCount(lines + [line], line.node) <= 1;
  }

  /** One step of the loop, whatever branch it took. */
  lemma Step(client: ClientId, hiOut: set<Node>, hiIn: set<Node>, lines: seq<Line>, line: Line,
             outs0: seq<Graph>, batch0: map<Node, Adjacency>, outs: seq<Graph>, batch: map<Node, Adjacency>)
    requires SoFar(client, hiOut, hiIn, lines, outs0, batch0)
    requires forall g :: g in outs ==> g.client == client
    requires forall n :: n in batch ==> n in batch0 || (n == line.node && Relevant(line.adjacency))
    requires forall p ::
      Produced(client, outs, batch, p)
      <= Produced(client, outs0, batch0, p) + PairIn(line.adjacency.preds * hiOut, line.adjacency.succs * hiIn, p)
    requires !(line.node in batch0 && Relevant(line.adjacency)) ==> forall p ::
      Produced(client, outs, batch, p)
      == Produced(client, outs0, batch0, p) + PairIn(line.adjacency.preds * hiOut, line.adjacency.succs * hiIn, p)
    ensures SoFar(client, hiOut, hiIn, lines + [line], outs, batch)
  {
    LinesSnoc(lines, line);
    hide LinePairs, LineCount, Produced;
    forall p ensures KeptPairs(hiOut, hiIn, lines + [line], p)
                  == KeptPairs(hiOut, hiIn, lines, p)
                    + PairIn(line.adjacency.preds * hiOut, line.adjacency.succs * hiIn, p)
    {
      PrunedPair(hiOut, hiIn, line, p);
    }
    if NoDuplicates(lines + [line]) {
      DuplicatesPrefix(lines, line);
    }
  }

  lemma EmptyWeight(client: ClientId, p: Path)
    ensures Weight(Graph(client, map[]), p) == 0
  {
    assert Carriers(map[], p) == {};
  }

  /** Replacing or adding a node's entry: never more than one pair more, exactly one more when new. */
  lemma BatchWeight(client: ClientId, batch: map<Node, Adjacency>, n: Node, a: Adjacency, p: Path)
    ensures Weight(Graph(client, batch[n := a]), p) <= Weight(Graph(client, batch), p) + PairIn(a.preds, a.succs, p)
    ensures n !in batch ==>
            Weight(Graph(client, batch[n := a]), p) == Weight(Graph(client, batch), p) + PairIn(a.preds, a.succs, p)
  {
    var before, after := Carriers(batch, p), Carriers(batch[n := a], p);
    if p.origin in a.preds && p.destination in a.succs {
      assert after == before + {n};
    } else {
      assert after == before - {n};
      SubsetOfSameSize(after, before);
    }
  }

  lemma {:induction false} TileHits(client: ClientId, node: Node, rows: nat, columns: nat, tiles: seq<Graph>, p: Path)
    requires forall g :: g in tiles ==> IsTile(client, node, rows, columns, g)
    ensures Hits(tiles, p) == if p.origin == p.destination then 0 else SumOf(CoversPair(node, p), tiles)
  {
    if tiles != [] {
      assert IsTile(client, node, rows, columns, tiles[0]);
      TileHits(client, node, rows, columns, tiles[1..], p);
      if p.origin in AdjacencyAt(tiles[0].nodes, node).preds
        && p.destination in AdjacencyAt(tiles[0].nodes, node).succs {
        assert Carriers(tiles[0].nodes, p) == {node};
      } else {
        assert Carriers(tiles[0].nodes, p) == {};
      }
    }
  }

  /** The tiles of a hub count every pair of it exactly as the untiled hub would. */
  lemma SplitHits(client: ClientId, node: Node, rows: nat, columns: nat, preds: set<Node>, succs: set<Node>,
                  tiles: seq<Graph>, p: Path)
    requires Covers(tiles, node, preds, succs) && Tiles(client, node, rows, columns, tiles)
    ensures Hits(tiles, p) == PairIn(preds, succs, p)
  {
    TileHits(client, node, rows, columns, tiles, p);
  }

  /** Every client's state, with its file as given. */
  ghost predicate AllHeld(out: map<ClientId, set<Node>>, into: map<ClientId, set<Node>>,
                          lefts: map<ClientId, seq<HighDegree>>,
                          files: map<Key, FileState<Line>>, rights: map<ClientId, seq<Graph>>,
                          extra: ClientId -> seq<Line>)
  {
    forall cl ::
      Joined(SetAt(out, cl), SetAt(into, cl), SeqAt(lefts, cl), FileAt(files, Key(cl, 0)).Content(), SeqAt(rights, cl),
             extra(cl))
  }

  lemma NothingFor(msgs: seq<Side>)
    ensures forall cl :: DegreesFor(cl, msgs[..0]) == [] && GraphsFor(cl, msgs[..0]) == []
  {}

  // ---- The size of a message -----------------------------------------------------------------

  ghost function NeighboursOf(nodes: map<Node, Adjacency>): Node -> nat {
    n => |AdjacencyAt(nodes, n).preds| + |AdjacencyAt(nodes, n).succs|
  }

  /** How many neighbours the nodes of a message have together. */
  ghost function Neighbours(nodes: map<Node, Adjacency>): nat {
    SumOver(NeighboursOf(nodes), nodes.Keys)
  }

  lemma EntryAdds(nodes: map<Node, Adjacency>, n: Node, a: Adjacency)
    ensures Neighbours(nodes[n := a]) <= Neighbours(nodes) + |a.preds| + |a.succs|
  {
    var after := nodes[n := a];
    SumOverRemove(NeighboursOf(after), after.Keys, n);
    assert after.Keys - {n} == nodes.Keys - {n};
    SumOverSame(NeighboursOf(after), NeighboursOf(nodes), nodes.Keys - {n});
    if n in nodes {
      SumOverRemove(NeighboursOf(nodes), nodes.Keys, n);
    } else {
      assert nodes.Keys - {n} == nodes.Keys;
    }
  }

  /** A node that is no hub has at most one neighbour more than the threshold. */
  lemma FewNeighbours(p: nat, s: nat, threshold: nat)
    requires p > 0 && s > 0 && p * s <= threshold
    ensures p + s <= threshold + 1
  {
    assert p * s == (p - 1) * s + s;
    ProductMonotone(p - 1, p - 1, 1, s);
  }

  /** Every message is a tile, which has one node, or a batch, which was sent as soon as it had chunkSize
      neighbours: it has fewer than that and one node more, and no node of it is a hub. */
  ghost predicate Sized(threshold: nat, chunkSize: nat, g: Graph) {
    || |g.nodes| == 1
    || (&& Neighbours(g.nodes) <= (if chunkSize > 0 then chunkSize - 1 else 0) + threshold + 1
        && forall n :: n in g.nodes ==> |g.nodes[n].preds| * |g.nodes[n].succs| <= threshold)
  }

  ghost predicate AllSized(threshold: nat, chunkSize: nat, outs: seq<Graph>) {
    forall g :: g in outs ==> Sized(threshold, chunkSize, g)
  }

  /** The batch at hand: its counted size is at least its neighbours and below the limit. */
  ghost predicate Gathered(threshold: nat, chunkSize: nat, batch: map<Node, Adjacency>, batchSize: nat) {
    && Neighbours(batch) <= batchSize && (batchSize == 0 || batchSize < chunkSize)
    && forall n :: n in batch ==> |batch[n].preds| * |batch[n].succs| <= threshold
  }

  lemma GatheredNothing(threshold: nat, chunkSize: nat)
    ensures Gathered(threshold, chunkSize, map[], 0)
  {}

  /** One node more: the batch can be sent, and stays open if it is below the limit. */
  lemma GatheredMore(threshold: nat, chunkSize: nat, batch: map<Node, Adjacency>, batchSize: nat, n: Node, a: Adjacency,
                 client: ClientId)
    requires Gathered(threshold, chunkSize, batch, batchSize)
    requires a.preds != {} && a.succs != {} && |a.preds| * |a.succs| <= threshold
    ensures Sized(threshold, chunkSize, Graph(client, batch[n := a]))
    ensures batchSize + |a.preds| + |a.succs| < chunkSize ==>
              Gathered(threshold, chunkSize, batch[n := a], batchSize + |a.preds| + |a.succs|)
  {
    EntryAdds(batch, n, a);
    FewNeighbours(|a.preds|, |a.succs|, threshold);
    hide Neighbours;
  }

  lemma GatheredIsSized(threshold: nat, chunkSize: nat, batch: map<Node, Adjacency>, batchSize: nat, client: ClientId)
    requires Gathered(threshold, chunkSize, batch, batchSize)
    ensures Sized(threshold, chunkSize, Graph(client, batch))
  {
    hide Neighbours;
  }

  lemma TilesAreSized(threshold: nat, chunkSize: nat, client: ClientId, node: Node, rows: nat, columns: nat,
                      tiles: seq<Graph>)
    requires Tiles(client, node, rows, columns, tiles)
    ensures AllSized(threshold, chunkSize, tiles)
  {
    hide Neighbours;
    forall g | g in tiles ensures Sized(threshold, chunkSize, g) {
      assert IsTile(client, node, rows, columns, g);
      assert |g.nodes| == |g.nodes.Keys|;
    }
  }

  class UC4PruneMergeFn {
    var hiOut: map<ClientId, set<Node>>
    var hiIn: map<ClientId, set<Node>>
    const spill: PersistentSpill<Line>
    const splitThreshold: nat
    const chunkSize: nat
    ghost var lefts: map<ClientId, seq<HighDegree>>
    ghost var rights: map<ClientId, seq<Graph>>
    /** The lines that crashes left in each client's file. */
    ghost var extra: ClientId -> seq<Line>

    ghost predicate Valid()
      reads this, spill
    {
      forall cl ::
        Joined(SetAt(hiOut, cl), SetAt(hiIn, cl), SeqAt(lefts, cl), spill.File(Key(cl, 0)), SeqAt(rights, cl),
               extra(cl))
    }

    constructor (spill: PersistentSpill<Line>, splitThreshold: nat := SPLIT_THRESHOLD, chunkSize: nat := CHUNK_SIZE)
      requires forall k :: spill.File(k) == []
      ensures Valid() && lefts == map[] && rights == map[] && forall cl :: extra(cl) == []
      ensures this.spill == spill && this.splitThreshold == splitThreshold && this.chunkSize == chunkSize
    {
      this.spill, this.splitThreshold, this.chunkSize := spill, splitThreshold, chunkSize;
      hiOut, hiIn, lefts, rights, extra := map[], map[], map[], map[], cl => [];
      new;
      JoinedNothing();
    }

    method Left(msg: HighDegree)
      requires Valid()
      modifies this
      ensures Valid() && rights == old(rights) && extra == old(extra)
      ensures lefts == old(lefts)[msg.client := old(SeqAt(lefts, msg.client)) + [msg]]
    {
      hide Joined;
      var client := msg.client;
      JoinedLeft(SetAt(hiOut, client), SetAt(hiIn, client), SeqAt(lefts, client), spill.File(Key(client, 0)),
                 SeqAt(rights, client),
                 extra(client), msg);
      hiOut := hiOut[client := SetAt(hiOut, client) + msg.hiOut];
      hiIn := hiIn[client := SetAt(hiIn, client) + msg.hiIn];
      lefts := lefts[client := SeqAt(lefts, client) + [msg]];
      forall cl
        ensures Joined(SetAt(hiOut, cl), SetAt(hiIn, cl), SeqAt(lefts, cl), spill.File(Key(cl, 0)), SeqAt(rights, cl),
                       extra(cl))
      {
        assert old(Joined(SetAt(hiOut, cl), SetAt(hiIn, cl), SeqAt(lefts, cl), spill.File(Key(cl, 0)),
                          SeqAt(rights, cl), extra(cl)));
      }
    }

    /** One line per node of the message. */
    method Right(msg: Graph)
      requires Valid()
      modifies this, spill
      ensures Valid() && lefts == old(lefts) && extra == old(extra) && hiOut == old(hiOut) && hiIn == old(hiIn)
      ensures Grown(old(spill.files), spill.files)
      ensures rights == old(rights)[msg.client := old(SeqAt(rights, msg.client)) + [msg]]
      ensures spill.Eager() && old(AllOnDisk(spill.files)) ==> AllOnDisk(spill.files)
    {
      hide Joined, LinePairs, LineCount, AllOnDisk, Grown, PersistentSpill.Eager;
      var client := msg.client;
      assert Joined(SetAt(hiOut, client), SetAt(hiIn, client), SeqAt(lefts, client), spill.File(Key(client, 0)),
                    SeqAt(rights, client), extra(client));
      AppendNodes(msg);
      JoinedRight(SetAt(hiOut, client), SetAt(hiIn, client), SeqAt(lefts, client), old(spill.File(Key(client, 0))),
                  SeqAt(rights, client),
                  extra(client), msg, spill.File(Key(client, 0)));
      rights := rights[client := SeqAt(rights, client) + [msg]];
      forall cl
        ensures Joined(SetAt(hiOut, cl), SetAt(hiIn, cl), SeqAt(lefts, cl), spill.File(Key(cl, 0)), SeqAt(rights, cl),
                       extra(cl))
      {
        assert old(Joined(SetAt(hiOut, cl), SetAt(hiIn, cl), SeqAt(lefts, cl), spill.File(Key(cl, 0)),
                          SeqAt(rights, cl), extra(cl)));
      }
    }

    method AppendNodes(msg: Graph)
      modifies spill
      ensures forall p ::
                LinePairs(spill.File(Key(msg.client, 0)), p)
                == LinePairs(old(spill.File(Key(msg.client, 0))), p) + Weight(msg, p)
      ensures forall n ::
        LineCount(spill.File(Key(msg.client, 0)), n)
          == LineCount(old(spill.File(Key(msg.client, 0))), n) + (if Relevant(AdjacencyAt(msg.nodes, n)) then 1 else 0)
      ensures forall k :: k != Key(msg.client, 0) ==> spill.File(k) == old(spill.File(k))
      ensures Grown(old(spill.files), spill.files)
      ensures spill.Eager() && old(AllOnDisk(spill.files)) ==> AllOnDisk(spill.files)
    {
      hide LinePairs, LineCount, PairIn, Weight, Visited, Grown, AllOnDisk, PersistentSpill.File, PersistentSpill.Eager;
      GrownNothing(spill.files);
      var todo := msg.nodes.Keys;
      forall p { VisitedEnds(msg, p); }
      assert msg.nodes.Keys - todo == {};
      while todo != {}
        invariant todo <= msg.nodes.Keys
        invariant forall p ::
          LinePairs(spill.File(Key(msg.client, 0)), p)
          == LinePairs(old(spill.File(Key(msg.client, 0))), p) + Visited(msg, msg.nodes.Keys - todo, p)
        invariant forall n ::
          LineCount(spill.File(Key(msg.client, 0)), n)
          == LineCount(old(spill.File(Key(msg.client, 0))), n)
            + (if n !in todo && Relevant(AdjacencyAt(msg.nodes, n)) then 1 else 0)
        invariant forall k :: k != Key(msg.client, 0) ==> spill.File(k) == old(spill.File(k))
        invariant Grown(old(spill.files), spill.files)
        invariant spill.Eager() && old(AllOnDisk(spill.files)) ==> AllOnDisk(spill.files)
        decreases |todo|
      {
        var n := Choose(todo);
        ghost var done, before := msg.nodes.Keys - todo, spill.files;
        var line := Line(n, msg.nodes[n]);
        AppendLine(msg.client, line);
        GrownTwice(old(spill.files), before, spill.files);
        forall p { VisitedGrows(msg, done, n, p); }
        todo := todo - {n};
        assert msg.nodes.Keys - todo == done + {n};
      }
      assert msg.nodes.Keys - todo == msg.nodes.Keys;
    }

    method AppendLine(client: ClientId, line: Line)
      modifies spill
      ensures forall p :: LinePairs(spill.File(Key(client, 0)), p)
                       == LinePairs(old(spill.File(Key(client, 0))), p)
                         + PairIn(line.adjacency.preds, line.adjacency.succs, p)
      ensures forall n :: LineCount(spill.File(Key(client, 0)), n)
                       == LineCount(old(spill.File(Key(client, 0))), n)
                         + (if line.node == n && Relevant(line.adjacency) then 1 else 0)
      ensures forall k :: k != Key(client, 0) ==> spill.File(k) == old(spill.File(k))
      ensures Grown(old(spill.files), spill.files)
      ensures spill.Eager() && old(AllOnDisk(spill.files)) ==> AllOnDisk(spill.files)
    {
      ghost var before := spill.files;
      LinesSnoc(spill.File(Key(client, 0)), line);
      hide LinePairs, LineCount, Grown, AppendedEach, FileAt, FileState.Content, AllOnDisk, PersistentSpill.Eager;
      spill.Append(Key(client, 0), line);
      AppendedEachGrows(before, OnlyTo(Key(client, 0), [line]), spill.files);
      forall k ensures spill.File(k) == FileAt(before, k).Content() + (if k == Key(client, 0) then [line] else []) {}
    }

    /** Reads every line back, prunes it, and emits it in tiles or in a batch. The high-degree sets
        of the client are given up. */
    method GetResult(client: ClientId) returns (outs: seq<Graph>)
      requires Valid()
      modifies this, spill
      ensures Valid() && rights == old(rights) && lefts == old(lefts)[client := []] && extra == old(extra)
      ensures PruneBeside(client, HiOut(old(SeqAt(lefts, client))), HiIn(old(SeqAt(lefts, client))),
                          SeqAt(rights, client),
                          extra(client), outs)
      ensures OneSided(extra(client)) ==>
                PruneResult(client, HiOut(old(SeqAt(lefts, client))), HiIn(old(SeqAt(lefts, client))),
                            SeqAt(rights, client), outs)
      ensures HubsSent(splitThreshold, HiOut(old(SeqAt(lefts, client))), HiIn(old(SeqAt(lefts, client))),
                       old(spill.File(Key(client, 0))), outs)
      ensures AllSized(splitThreshold, chunkSize, outs)
    {
      hide HiOut, HiIn, Records, PruneResult, PruneBeside, SoFar, HubsSent, OneSided, AllSized;
      var keepOut, keepIn := SetAt(hiOut, client), SetAt(hiIn, client);
      assert Joined(keepOut, keepIn, SeqAt(lefts, client), spill.File(Key(client, 0)), SeqAt(rights, client),
                    extra(client));
      JoinedNothing();
      hide Joined;
      hiOut, hiIn := hiOut - {client}, hiIn - {client};
      lefts := lefts[client := []];
      var lines := spill.IterLines(Key(client, 0));
      outs := Prune(client, keepOut, keepIn, lines);
      PruneIsResult(client, keepOut, keepIn, lines, SeqAt(rights, client), extra(client), outs);
      if OneSided(extra(client)) {
        PruneAlone(client, keepOut, keepIn, SeqAt(rights, client), extra(client), outs);
      }
      forall cl
        ensures Joined(SetAt(hiOut, cl), SetAt(hiIn, cl), SeqAt(lefts, cl), spill.File(Key(cl, 0)), SeqAt(rights, cl),
                       extra(cl))
      {
        LeftGivenUp(old(SetAt(hiOut, cl)), old(SetAt(hiIn, cl)), old(SeqAt(lefts, cl)), spill.File(Key(cl, 0)),
                    SeqAt(rights, cl),
                    extra(cl));
      }
    }

    lemma LeftGivenUp(out: set<Node>, into: set<Node>, msgs: seq<HighDegree>, lines: seq<Line>, ins: seq<Graph>,
                      more: seq<Line>)
      requires Joined(out, into, msgs, lines, ins, more)
      ensures Joined({}, {}, [], lines, ins, more)
    {
      JoinedNothing();
    }

    lemma PruneIsResult(client: ClientId, keepOut: set<Node>, keepIn: set<Node>, lines: seq<Line>, ins: seq<Graph>,
                        more: seq<Line>, outs: seq<Graph>)
      requires SoFar(client, keepOut, keepIn, lines, outs, map[])
      requires Records(lines, ins, more)
      ensures PruneBeside(client, keepOut, keepIn, ins, more, outs)
    {
      forall p ensures Produced(client, outs, map[], p) == Hits(outs, p) {
        EmptyWeight(client, p);
      }
      hide Hits, LinePairs, LineCount, Appearances, Produced;
      assert (forall n :: Appearances(ins, n) + LineCount(more, n) <= 1) ==> NoDuplicates(lines);
    }

    /** The loop's state: what was sent and what waits in the batch. */
    ghost predicate Pruning(client: ClientId, keepOut: set<Node>, keepIn: set<Node>, lines: seq<Line>, outs: seq<Graph>,
                            batch: map<Node, Adjacency>, batchSize: nat)
    {
      && SoFar(client, keepOut, keepIn, lines, outs, batch)
      && HubsSent(splitThreshold, keepOut, keepIn, lines, outs)
      && AllSized(splitThreshold, chunkSize, outs) && Gathered(splitThreshold, chunkSize, batch, batchSize)
    }

    method Prune(client: ClientId, keepOut: set<Node>, keepIn: set<Node>, lines: seq<Line>) returns (outs: seq<Graph>)
      ensures SoFar(client, keepOut, keepIn, lines, outs, map[])
      ensures HubsSent(splitThreshold, keepOut, keepIn, lines, outs)
      ensures AllSized(splitThreshold, chunkSize, outs)
    {
      hide SoFar, HubsSent, AllSized, Gathered, Pruning, ChunkSize, Covers, Tiles, Neighbours;
      outs := [];
      var batch: map<Node, Adjacency> := map[];
      var batchSize: nat := 0;
      var i := 0;
      NothingPruned(client, keepOut, keepIn, lines[..0]);
      while i < |lines|
        invariant 0 <= i <= |lines|
        invariant Pruning(client, keepOut, keepIn, lines[..i], outs, batch, batchSize)
      {
        assert lines[..i + 1] == lines[..i] + [lines[i]];
        var line := lines[i];
        var preds := line.adjacency.preds * keepOut;
        var succs := line.adjacency.succs * keepIn;
        if preds == {} || succs == {} {
          LineSkipped(client, keepOut, keepIn, lines[..i], line, outs, batch, batchSize);
        } else if |preds| * |succs| > splitThreshold {
          var tiles := SaltedTiles(splitThreshold, client, line.node, preds, succs);
          LineSplit(client, keepOut, keepIn, lines[..i], line, outs, batch, batchSize, tiles);
          outs := outs + tiles;
        } else {
          LineBatched(client, keepOut, keepIn, lines[..i], line, outs, batch, batchSize);
          batch := batch[line.node := Adjacency(preds, succs)];
          batchSize := batchSize + |preds| + |succs|;
          if batchSize >= chunkSize {
            outs := outs + [Graph(client, batch)];
            batch := map[];
            batchSize := 0;
          }
        }
        i := i + 1;
      }
      assert lines[..i] == lines;
      LastBatch(client, keepOut, keepIn, lines, outs, batch, batchSize);
      if batch != map[] {
        outs := outs + [Graph(client, batch)];
      }
    }

    lemma NothingPruned(client: ClientId, keepOut: set<Node>, keepIn: set<Node>, lines: seq<Line>)
      requires lines == []
      ensures Pruning(client, keepOut, keepIn, lines, [], map[], 0)
    {
      forall p { EmptyWeight(client, p); }
      GatheredNothing(splitThreshold, chunkSize);
      hide Gathered;
    }

    lemma LineSkipped(client: ClientId, keepOut: set<Node>, keepIn: set<Node>, lines: seq<Line>, line: Line,
                      outs: seq<Graph>, batch: map<Node, Adjacency>, batchSize: nat)
      requires Pruning(client, keepOut, keepIn, lines, outs, batch, batchSize)
      requires line.adjacency.preds * keepOut == {} || line.adjacency.succs * keepIn == {}
      ensures Pruning(client, keepOut, keepIn, lines + [line], outs, batch, batchSize)
    {
      hide SoFar, HubsSent, AllSized, Gathered;
      Skipped(client, keepOut, keepIn, lines, line, outs, batch);
      NoHub(keepOut, keepIn, lines, line, outs);
    }

    lemma LineSplit(client: ClientId, keepOut: set<Node>, keepIn: set<Node>, lines: seq<Line>, line: Line,
                    outs: seq<Graph>, batch: map<Node, Adjacency>, batchSize: nat, tiles: seq<Graph>)
      requires Pruning(client, keepOut, keepIn, lines, outs, batch, batchSize)
      requires line.adjacency.preds * keepOut != {} && line.adjacency.succs * keepIn != {}
      requires IsSplit(splitThreshold, client, line.node, line.adjacency.preds * keepOut, line.adjacency.succs * keepIn,
                       tiles)
      ensures Pruning(client, keepOut, keepIn, lines + [line], outs + tiles, batch, batchSize)
    {
      hide SoFar, HubsSent, Sized, Gathered, ChunkSize, Covers, Tiles;
      var p, s := |line.adjacency.preds * keepOut|, |line.adjacency.succs * keepIn|;
      var rows, columns := Min(ChunkSize(splitThreshold, p, s), p), Min(ChunkSize(splitThreshold, s, p), s);
      Split(client, keepOut, keepIn, lines, line, outs, batch, rows, columns, tiles);
      HubSplit(client, keepOut, keepIn, lines, line, outs, rows, columns, tiles);
      TilesAreSized(splitThreshold, chunkSize, client, line.node, rows, columns, tiles);
    }

    /** A node goes into the batch, which is sent when that makes it large enough. */
    lemma LineBatched(client: ClientId, keepOut: set<Node>, keepIn: set<Node>, lines: seq<Line>, line: Line,
                      outs: seq<Graph>, batch: map<Node, Adjacency>, batchSize: nat)
      requires Pruning(client, keepOut, keepIn, lines, outs, batch, batchSize)
      requires line.adjacency.preds * keepOut != {} && line.adjacency.succs * keepIn != {}
      requires |line.adjacency.preds * keepOut| * |line.adjacency.succs * keepIn| <= splitThreshold
      ensures var preds, succs := line.adjacency.preds * keepOut, line.adjacency.succs * keepIn;
              var batch2, size2 := batch[line.node := Adjacency(preds, succs)], batchSize + |preds| + |succs|;
              if size2 < chunkSize then Pruning(client, keepOut, keepIn, lines + [line], outs, batch2, size2)
              else Pruning(client, keepOut, keepIn, lines + [line], outs + [Graph(client, batch2)], map[], 0)
    {
      hide SoFar, HubsSent, Sized, Gathered;
      var pruned := Adjacency(line.adjacency.preds * keepOut, line.adjacency.succs * keepIn);
      var batch2 := batch[line.node := pruned];
      Batched(client, keepOut, keepIn, lines, line, outs, batch);
      NoHub(keepOut, keepIn, lines, line, outs);
      GatheredMore(splitThreshold, chunkSize, batch, batchSize, line.node, pruned, client);
      Flushed(client, keepOut, keepIn, lines + [line], outs, batch2);
      HubsSentFlush(splitThreshold, keepOut, keepIn, lines + [line], outs, Graph(client, batch2));
      GatheredNothing(splitThreshold, chunkSize);
    }

    lemma LastBatch(client: ClientId, keepOut: set<Node>, keepIn: set<Node>, lines: seq<Line>, outs: seq<Graph>,
                    batch: map<Node, Adjacency>, batchSize: nat)
      requires Pruning(client, keepOut, keepIn, lines, outs, batch, batchSize)
      ensures var all := if batch != map[] then outs + [Graph(client, batch)] else outs;
              && SoFar(client, keepOut, keepIn, lines, all, map[])
                && HubsSent(splitThreshold, keepOut, keepIn, lines, all)
              && AllSized(splitThreshold, chunkSize, all)
    {
      hide SoFar, HubsSent, Sized, Gathered;
      Flushed(client, keepOut, keepIn, lines, outs, batch);
      HubsSentFlush(splitThreshold, keepOut, keepIn, lines, outs, Graph(client, batch));
      GatheredIsSized(splitThreshold, chunkSize, batch, batchSize, client);
    }

    lemma NoHub(keepOut: set<Node>, keepIn: set<Node>, lines: seq<Line>, line: Line, outs: seq<Graph>)
      requires |line.adjacency.preds * keepOut| * |line.adjacency.succs * keepIn| <= splitThreshold
               || line.adjacency.preds * keepOut == {} || line.adjacency.succs * keepIn == {}
      requires HubsSent(splitThreshold, keepOut, keepIn, lines, outs)
      ensures HubsSent(splitThreshold, keepOut, keepIn, lines + [line], outs)
    {
      assert outs + [] == outs;
      HubsSentMore(splitThreshold, keepOut, keepIn, lines, outs, line, []);
    }

    lemma HubSplit(client: ClientId, keepOut: set<Node>, keepIn: set<Node>, lines: seq<Line>, line: Line,
                   outs: seq<Graph>,
                   rows: nat, columns: nat, tiles: seq<Graph>)
      requires Covers(tiles, line.node, line.adjacency.preds * keepOut, line.adjacency.succs * keepIn)
      requires Tiles(client, line.node, rows, columns, tiles)
      requires HubsSent(splitThreshold, keepOut, keepIn, lines, outs)
      ensures HubsSent(splitThreshold, keepOut, keepIn, lines + [line], outs + tiles)
    {
      forall p {
        SplitHits(client, line.node, rows, columns, line.adjacency.preds * keepOut, line.adjacency.succs * keepIn,
                  tiles, p);
      }
      hide Covers, Tiles, Hits, HubsSent;
      HubsSentMore(splitThreshold, keepOut, keepIn, lines, outs, line, tiles);
    }

    lemma Skipped(client: ClientId, keepOut: set<Node>, keepIn: set<Node>, lines: seq<Line>, line: Line,
                  outs: seq<Graph>, batch: map<Node, Adjacency>)
      requires SoFar(client, keepOut, keepIn, lines, outs, batch)
      requires line.adjacency.preds * keepOut == {} || line.adjacency.succs * keepIn == {}
      ensures SoFar(client, keepOut, keepIn, lines + [line], outs, batch)
    {
      Step(client, keepOut, keepIn, lines, line, outs, batch, outs, batch);
    }

    lemma Split(client: ClientId, keepOut: set<Node>, keepIn: set<Node>, lines: seq<Line>, line: Line,
                outs: seq<Graph>, batch: map<Node, Adjacency>, rows: nat, columns: nat, tiles: seq<Graph>)
      requires SoFar(client, keepOut, keepIn, lines, outs, batch)
      requires Covers(tiles, line.node, line.adjacency.preds * keepOut, line.adjacency.succs * keepIn)
      requires Tiles(client, line.node, rows, columns, tiles)
      ensures SoFar(client, keepOut, keepIn, lines + [line], outs + tiles, batch)
    {
      forall p ensures Produced(client, outs + tiles, batch, p) == Produced(client, outs, batch, p)
                    + PairIn(line.adjacency.preds * keepOut, line.adjacency.succs * keepIn, p)
      {
        SplitHits(client, line.node, rows, columns, line.adjacency.preds * keepOut, line.adjacency.succs * keepIn,
                  tiles, p);
        HitsConcat(outs, tiles, p);
      }
      assert forall g :: g in tiles ==> g.client == client;
      hide Produced, Covers, Tiles;
      Step(client, keepOut, keepIn, lines, line, outs, batch, outs + tiles, batch);
    }

    lemma Batched(client: ClientId, keepOut: set<Node>, keepIn: set<Node>, lines: seq<Line>, line: Line,
                  outs: seq<Graph>, batch: map<Node, Adjacency>)
      requires SoFar(client, keepOut, keepIn, lines, outs, batch)
      requires line.adjacency.preds * keepOut != {} && line.adjacency.succs * keepIn != {}
      ensures SoFar(client, keepOut, keepIn, lines + [line], outs,
                    batch[line.node := Adjacency(line.adjacency.preds * keepOut, line.adjacency.succs * keepIn)])
    {
      var pruned := Adjacency(line.adjacency.preds * keepOut, line.adjacency.succs * keepIn);
      forall p { BatchWeight(client, batch, line.node, pruned, p); }
      hide Weight, Hits;
      Step(client, keepOut, keepIn, lines, line, outs, batch, outs, batch[line.node := pruned]);
    }

    lemma Flushed(client: ClientId, keepOut: set<Node>, keepIn: set<Node>, lines: seq<Line>, outs: seq<Graph>,
                  batch: map<Node, Adjacency>)
      requires SoFar(client, keepOut, keepIn, lines, outs, batch)
      ensures SoFar(client, keepOut, keepIn, lines, outs + [Graph(client, batch)], map[])
    {
      forall p ensures Produced(client, outs + [Graph(client, batch)], map[], p) == Produced(client, outs, batch, p) {
        HitsSnoc(outs, Graph(client, batch), p);
        EmptyWeight(client, p);
      }
      hide Produced, KeptPairs, NoDuplicates;
    }

    method Discard(client: ClientId)
      requires Valid()
      modifies this, spill
      ensures Valid() && lefts == old(lefts)[client := []] && rights == old(rights)[client := []]
      ensures forall cl :: extra(cl) == if cl == client then [] else old(extra)(cl)
    {
      JoinedNothing();
      hide Joined;
      hiOut, hiIn := hiOut - {client}, hiIn - {client};
      spill.Clear(Key(client, 0));
      lefts, rights := lefts[client := []], rights[client := []];
      extra := cl => if cl == client then [] else old(extra)(cl);
      forall cl
        ensures Joined(SetAt(hiOut, cl), SetAt(hiIn, cl), SeqAt(lefts, cl), spill.File(Key(cl, 0)), SeqAt(rights, cl),
                       extra(cl))
      {
        assert old(Joined(SetAt(hiOut, cl), SetAt(hiIn, cl), SeqAt(lefts, cl), spill.File(Key(cl, 0)),
                          SeqAt(rights, cl), extra(cl)));
        assert cl != client ==> spill.File(Key(cl, 0)) == old(spill.File(Key(cl, 0)));
      }
    }

    method SnapshotState()
      returns (savedOut: map<ClientId, set<Node>>, savedIn: map<ClientId, set<Node>>, committed: map<Key, nat>)
      requires Valid()
      modifies spill
      ensures Valid() && savedOut == hiOut && savedIn == hiIn && committed == OpenLengths(spill.files)
      ensures AllOnDisk(spill.files)
      ensures forall k :: FileAt(spill.files, k) == old(FileAt(spill.files, k)).Flushed()
    {
      hide Joined;
      savedOut, savedIn := hiOut, hiIn;
      committed := spill.Snapshot();
      forall cl
        ensures Joined(SetAt(hiOut, cl), SetAt(hiIn, cl), SeqAt(lefts, cl), spill.File(Key(cl, 0)), SeqAt(rights, cl),
                       extra(cl))
      {
        assert old(Joined(SetAt(hiOut, cl), SetAt(hiIn, cl), SeqAt(lefts, cl), spill.File(Key(cl, 0)),
                          SeqAt(rights, cl), extra(cl)));
      }
    }

    method ReceiveOne(msg: Side)
      requires Valid()
      modifies this, spill
      ensures Valid() && extra == old(extra) && Grown(old(spill.files), spill.files)
      ensures spill.Eager() && old(AllOnDisk(spill.files)) ==> AllOnDisk(spill.files)
      ensures forall cl :: SeqAt(lefts, cl) == old(SeqAt(lefts, cl)) + DegreesOf(cl, msg)
      ensures forall cl :: SeqAt(rights, cl) == old(SeqAt(rights, cl)) + GraphsOf(cl, msg)
    {
      hide Valid, Grown, AllOnDisk, PersistentSpill.Eager;
      match msg {
        case OfDegrees(degrees) =>
          Left(degrees);
          GrownNothing(spill.files);
        case OfGraph(graph) =>
          Right(graph);
      }
    }

    method Receive(msgs: seq<Side>)
      requires Valid()
      modifies this, spill
      ensures Valid() && extra == old(extra) && Grown(old(spill.files), spill.files)
      ensures spill.Eager() && old(AllOnDisk(spill.files)) ==> AllOnDisk(spill.files)
      ensures forall cl :: SeqAt(lefts, cl) == old(SeqAt(lefts, cl)) + DegreesFor(cl, msgs)
      ensures forall cl :: SeqAt(rights, cl) == old(SeqAt(rights, cl)) + GraphsFor(cl, msgs)
    {
      hide Valid, Grown, DegreesFor, GraphsFor, SeqAt, AllOnDisk, PersistentSpill.Eager;
      GrownNothing(spill.files);
      NothingFor(msgs);
      var i := 0;
      while i < |msgs|
        invariant 0 <= i <= |msgs| && Valid() && extra == old(extra) && Grown(old(spill.files), spill.files)
        invariant spill.Eager() && old(AllOnDisk(spill.files)) ==> AllOnDisk(spill.files)
        invariant forall cl :: SeqAt(lefts, cl) == old(SeqAt(lefts, cl)) + DegreesFor(cl, msgs[..i])
        invariant forall cl :: SeqAt(rights, cl) == old(SeqAt(rights, cl)) + GraphsFor(cl, msgs[..i])
      {
        ghost var before := spill.files;
        ReceiveOne(msgs[i]);
        GrownTwice(old(spill.files), before, spill.files);
        assert msgs[..i + 1] == msgs[..i] + [msgs[i]];
        OneMoreForAll(msgs[..i], msgs[i]);
        i := i + 1;
      }
      assert msgs[..i] == msgs;
    }

    lemma RecordsAll()
      requires Valid()
      ensures forall cl :: Records(FileAt(spill.files, Key(cl, 0)).Content(), SeqAt(rights, cl), extra(cl))
      ensures forall cl :: Records(spill.File(Key(cl, 0)), SeqAt(rights, cl), []) <==> OneSided(extra(cl))
    {
      hide Records, OneSided;
      forall cl
        ensures Records(FileAt(spill.files, Key(cl, 0)).Content(), SeqAt(rights, cl), extra(cl))
        ensures Records(spill.File(Key(cl, 0)), SeqAt(rights, cl), []) <==> OneSided(extra(cl))
      {
        assert Joined(SetAt(hiOut, cl), SetAt(hiIn, cl), SeqAt(lefts, cl), spill.File(Key(cl, 0)), SeqAt(rights, cl),
                      extra(cl));
        RecordsAlone(spill.File(Key(cl, 0)), SeqAt(rights, cl), extra(cl));
      }
    }

    lemma AllJoined()
      requires Valid()
      ensures AllHeld(hiOut, hiIn, lefts, spill.files, rights, extra)
    {}

    lemma StillJoined(saved: ClientId -> seq<Line>, before: map<Key, FileState<Line>>,
                      atCrash: map<Key, FileState<Line>>)
      requires AllHeld(hiOut, hiIn, lefts, before, rights, saved)
      requires forall k ::
                 spill.File(k) == FileAt(before, k).Content() + KeptLines(FileAt(before, k), FileAt(atCrash, k))
      requires forall cl :: extra(cl) == saved(cl) + KeptIn(before, atCrash, cl)
      ensures Valid()
    {
      hide Joined, KeptLines, FileAt, FileState.Content, PersistentSpill.File;
      forall cl
        ensures Joined(SetAt(hiOut, cl), SetAt(hiIn, cl), SeqAt(lefts, cl), spill.File(Key(cl, 0)), SeqAt(rights, cl),
                       extra(cl))
      {
        JoinedKept(SetAt(hiOut, cl), SetAt(hiIn, cl), SeqAt(lefts, cl), FileAt(before, Key(cl, 0)).Content(),
                   SeqAt(rights, cl), saved(cl), KeptIn(before, atCrash, cl));
      }
    }

    lemma KeptIsNothing(saved: ClientId -> seq<Line>, before: map<Key, FileState<Line>>,
                        atCrash: map<Key, FileState<Line>>)
      requires Grown(before, atCrash)
      requires forall cl :: extra(cl) == saved(cl) + KeptIn(before, atCrash, cl)
      ensures forall cl :: extra(cl) == saved(cl) <==>
                FileAt(before, Key(cl, 0)).Open? || FileAt(atCrash, Key(cl, 0)).disk == FileAt(before, Key(cl, 0)).disk
    {
      hide FileAt;
      forall cl
        ensures extra(cl) == saved(cl) <==>
                FileAt(before, Key(cl, 0)).Open? || FileAt(atCrash, Key(cl, 0)).disk == FileAt(before, Key(cl, 0)).disk
      {
        assert GrownFile(FileAt(before, Key(cl, 0)), FileAt(atCrash, Key(cl, 0)));
        assert |extra(cl)| == |saved(cl)| + |KeptIn(before, atCrash, cl)|;
      }
    }

    /** What restore leaves of a client's file beyond what it had at the checkpoint. */
    ghost function KeptIn(before: map<Key, FileState<Line>>, atCrash: map<Key, FileState<Line>>,
                          cl: ClientId): seq<Line>
    {
      KeptLines(FileAt(before, Key(cl, 0)), FileAt(atCrash, Key(cl, 0)))
    }

    /** A checkpoint, some more messages, the death of the process, a restore and a replay. `before` is
        what the files were after the checkpoint, `atCrash` what they were when the process died. The sets
        are right; the file has besides what it should have the lines that had reached the disk where it
        had no open handle at the checkpoint. */
    method MergeThroughCrash(lost: seq<Side>, replay: seq<Side>)
      returns (ghost before: map<Key, FileState<Line>>, ghost atCrash: map<Key, FileState<Line>>)
      requires Valid()
      modifies this, spill
      ensures Valid() && AllOnDisk(before) && Grown(before, atCrash) && (spill.Eager() ==> AllOnDisk(atCrash))
      ensures forall k :: FileAt(before, k) == old(FileAt(spill.files, k)).Flushed()
      ensures forall cl ::
        Records(FileAt(atCrash, Key(cl, 0)).Content(), old(SeqAt(rights, cl)) + GraphsFor(cl, lost), old(extra)(cl))
      ensures forall cl :: SeqAt(lefts, cl) == old(SeqAt(lefts, cl)) + DegreesFor(cl, replay)
      ensures forall cl :: SeqAt(rights, cl) == old(SeqAt(rights, cl)) + GraphsFor(cl, replay)
      ensures forall cl :: extra(cl) == old(extra)(cl) + KeptIn(before, atCrash, cl)
      ensures forall cl :: extra(cl) == old(extra)(cl) <==>
                FileAt(before, Key(cl, 0)).Open? || FileAt(atCrash, Key(cl, 0)).disk == FileAt(before, Key(cl, 0)).disk
      ensures forall cl :: Records(spill.File(Key(cl, 0)), SeqAt(rights, cl), []) <==> OneSided(extra(cl))
    {
      hide Valid, Grown, DegreesFor, GraphsFor, FileAt, FileState.Content, FileState.Flushed, AllOnDisk, KeptIn,
        OpenLengths, Records, OneSided,
           AllHeld, SeqAt, PersistentSpill.Eager;
      var savedOut, savedIn, committed := SnapshotState();
      before := spill.files;
      ghost var savedLefts, savedRights, savedExtra := lefts, rights, extra;
      AllJoined();
      Receive(lost);
      atCrash := spill.files;
      RecordsAll();
      spill.CrashAndRestore(committed, before);
      hiOut, hiIn := savedOut, savedIn;
      lefts, rights, extra := savedLefts, savedRights, cl => savedExtra(cl) + KeptIn(before, atCrash, cl);
      StillJoined(savedExtra, before, atCrash);
      Receive(replay);
      RecordsAll();
      KeptIsNothing(savedExtra, before, atCrash);
    }
  }
}

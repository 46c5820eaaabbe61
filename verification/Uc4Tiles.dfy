/** Splitting a hub node: the predecessor and successor lists are cut into chunks and every
    pair of chunks becomes one tile. */
module Uc4Tiles {
  import opened Common
  import opened Uc4Graph
  import opened GraphLedger

  // ---- The chunk size --------------------------------------------------------------------

  ghost predicate IsFloorRoot(k: nat, num: nat, den: nat) {
    k * k * den <= num < (k + 1) * (k + 1) * den
  }

  /** The integer part of the square root of num / den. */
  function FloorRoot(num: nat, den: nat): (k: nat)
    requires den > 0
    ensures IsFloorRoot(k, num, den)
  {
    FloorRootFrom(num, den, 0)
  }

  function FloorRootFrom(num: nat, den: nat, k: nat): (r: nat)
    requires den > 0 && k * k * den <= num
    ensures IsFloorRoot(r, num, den)
    decreases num - k * k * den
  {
    if (k + 1) * (k + 1) * den <= num then
      SquareGrows(k, den);
      FloorRootFrom(num, den, k + 1)
    else k
  }

  lemma SquareGrows(k: nat, den: nat)
    requires den > 0
    ensures k * k * den < (k + 1) * (k + 1) * den
  {
    assert (k + 1) * (k + 1) * den == k * k * den + (2 * k + 1) * den;
    assert (2 * k + 1) * den > 0;
  }

  lemma ProductMonotone(a: nat, b: nat, c: nat, d: nat)
    requires a <= b && c <= d
    ensures a * c <= b * d
  {
    assert a * c <= b * c;
    assert b * c <= b * d;
  }

  lemma SquareMonotone(a: nat, b: nat, den: nat)
    requires a <= b
    ensures a * a * den <= b * b * den
  {
    ProductMonotone(a, b, a, b);
    ProductMonotone(a * a, b * b, den, den);
  }

  /** k is at most the root exactly when its square fits. */
  lemma RootCompare(r: nat, num: nat, den: nat, k: nat)
    requires den > 0 && IsFloorRoot(r, num, den)
    ensures k <= r <==> k * k * den <= num
  {
    if k <= r {
      SquareMonotone(k, r, den);
    } else {
      SquareMonotone(r + 1, k, den);
    }
  }

  function ChunkSize(threshold: nat, count: nat, other: nat): (chunk: nat)
    requires other > 0
    ensures chunk >= 1
  {
    var root := FloorRoot(threshold * count, other);
    if root < 1 then 1 else root
  }

  /** Largest number of pairs in a tile of p x s pairs under this threshold. */
  function LargestTile(threshold: nat, p: nat, s: nat): int
    requires p > 0 && s > 0
  {
    Min(ChunkSize(threshold, p, s), p) * Min(ChunkSize(threshold, s, p), s)
  }

  /** When neither root vanishes the product of the chunk sizes is within the threshold. */
  lemma RootsWithinThreshold(threshold: nat, p: nat, s: nat, k: nat, l: nat)
    requires p > 0 && s > 0
    requires k * k * s <= threshold * p && l * l * p <= threshold * s
    ensures k * l <= threshold
  {
    var ps := p * s;
    ProductMonotone(k * k * s, threshold * p, l * l * p, threshold * s);
    Regroup(k, l, p, s);
    Regroup(threshold, 1, p, s);
    if k * l > threshold {
      SquareGrows(threshold, ps);
      SquareMonotone(threshold + 1, k * l, ps);
    }
  }

  lemma Regroup(k: int, l: int, p: int, s: int)
    ensures (k * k * s) * (l * l * p) == (k * l) * (k * l) * (p * s)
    ensures (k * p) * (k * s) == k * k * (p * s)
  {}

  lemma Swap(a: int, b: int, c: int)
    ensures a * b * c == a * c * b == c * a * b
  {}

  /** One root vanishes: the other is at least the threshold ... */
  lemma LopsidedLow(threshold: nat, p: nat, s: nat)
    requires p > 0 && threshold * p < s
    ensures threshold <= FloorRoot(threshold * s, p)
  {
    ProductMonotone(threshold * p, s, threshold, threshold);
    Swap(threshold, p, threshold);
    assert threshold * threshold * p <= threshold * s;
    RootCompare(FloorRoot(threshold * s, p), threshold * s, p, threshold);
  }

  /** ... and at most the number of items it chunks. */
  lemma LopsidedHigh(threshold: nat, p: nat, s: nat)
    requires p > 0 && p * s > threshold
    ensures FloorRoot(threshold * s, p) <= s
  {
    ProductMonotone(threshold, p * s, s, s);
    Swap(p, s, s);
    assert threshold * s <= p * s * s == s * s * p;
    SquareGrows(s, p);
    RootCompare(FloorRoot(threshold * s, p), threshold * s, p, s + 1);
  }

  lemma LopsidedTile(threshold: nat, p: nat, s: nat)
    requires p > 0 && s > 0 && threshold > 0 && p * s > threshold
    requires threshold * p < s
    ensures LargestTile(threshold, p, s) <= threshold <==> threshold * s < (threshold + 1) * (threshold + 1) * p
  {
    var k, l := FloorRoot(threshold * p, s), FloorRoot(threshold * s, p);
    RootCompare(k, threshold * p, s, 1);
    LopsidedLow(threshold, p, s);
    LopsidedHigh(threshold, p, s);
    RootCompare(l, threshold * s, p, threshold + 1);
    assert ChunkSize(threshold, p, s) == 1 && ChunkSize(threshold, s, p) == l;
    assert LargestTile(threshold, p, s) == 1 * l;
  }

  /** The lighter side of a lopsided hub never breaks the other half of the condition. */
  lemma LopsidedOther(threshold: nat, p: nat, s: nat)
    requires threshold * p < s
    ensures threshold * p < (threshold + 1) * (threshold + 1) * s
  {
    ProductMonotone(1, threshold + 1, 1, threshold + 1);
    ProductMonotone(1, (threshold + 1) * (threshold + 1), s, s);
  }

  lemma LargestTileSymmetric(threshold: nat, p: nat, s: nat)
    requires p > 0 && s > 0
    ensures LargestTile(threshold, p, s) == LargestTile(threshold, s, p)
  {}

  /** A split hub stays within the threshold exactly when neither side outweighs the other by
      more than a factor of about the threshold. */
  lemma TilesWithinThreshold(threshold: nat, p: nat, s: nat)
    requires p > 0 && s > 0 && threshold > 0 && p * s > threshold
    ensures LargestTile(threshold, p, s) <= threshold <==>
            threshold * s < (threshold + 1) * (threshold + 1) * p
              && threshold * p < (threshold + 1) * (threshold + 1) * s
  {
    if threshold * p < s {
      LopsidedTile(threshold, p, s);
      LopsidedOther(threshold, p, s);
    } else if threshold * s < p {
      Swap(s, p, 1);
      LopsidedTile(threshold, s, p);
      LopsidedOther(threshold, s, p);
      LargestTileSymmetric(threshold, p, s);
    } else {
      BalancedTile(threshold, p, s);
      BalancedSides(threshold, p, s);
      BalancedSides(threshold, s, p);
    }
  }

  lemma BalancedTile(threshold: nat, p: nat, s: nat)
    requires p > 0 && s > 0 && threshold * p >= s && threshold * s >= p
    ensures LargestTile(threshold, p, s) <= threshold
  {
    var k, l := FloorRoot(threshold * p, s), FloorRoot(threshold * s, p);
    RootCompare(k, threshold * p, s, 1);
    RootCompare(l, threshold * s, p, 1);
    RootsWithinThreshold(threshold, p, s, k, l);
    assert ChunkSize(threshold, p, s) == k && ChunkSize(threshold, s, p) == l;
    ProductMonotone(Min(k, p), k, Min(l, s), l);
  }

  lemma BalancedSides(threshold: nat, p: nat, s: nat)
    requires p > 0 && threshold * p >= s
    ensures threshold * s < (threshold + 1) * (threshold + 1) * p
  {
    ProductMonotone(s, threshold * p, threshold, threshold);
    Swap(threshold, p, threshold);
    SquareGrows(threshold, p);
  }

  /** A hub with one predecessor and 300000 successors breaks the bound at the shipped threshold. */
  lemma TileOverThreshold()
    ensures LargestTile(250_000, 1, 300_000) > 250_000
  {
    TilesWithinThreshold(250_000, 1, 300_000);
  }

  // ---- The tiles -------------------------------------------------------------------------

  /** A duplicate-free listing of a set, in any order. */
  ghost predicate Lists(list: seq<Node>, s: set<Node>) {
    Distinct(list) && |list| == |s| && forall x :: x in list <==> x in s
  }

  method ListOf(s: set<Node>) returns (list: seq<Node>)
    ensures Lists(list, s)
  {
    list := [];
    var todo := s;
    while todo != {}
      invariant todo <= s && Distinct(list) && |list| + |todo| == |s|
      invariant forall x :: x in list <==> x in s && x !in todo
      decreases |todo|
    {
      var x := Choose(todo);
      list := list + [x];
      todo := todo - {x};
    }
  }

  lemma ListsAll(list: seq<Node>, s: set<Node>)
    requires Lists(list, s) && s != {}
    ensures ElementsOf(list) == s && list != [] && Distinct(list)
  {
    var x := Pick(s);
    assert x in list;
    forall y ensures y in ElementsOf(list) <==> y in s {}
  }

  lemma {:induction false} ElementCount(list: seq<Node>)
    requires Distinct(list)
    ensures |ElementsOf(list)| == |list|
  {
    if list != [] {
      var rest, last := list[..|list| - 1], list[|list| - 1];
      ElementCount(rest);
      assert list == rest + [last];
      assert ElementsOf(list) == ElementsOf(rest) + {last};
    }
  }

  /** Whether the pair p of the node is in this message. */
  ghost function CoversPair(node: Node, p: Path): Graph -> nat {
    (g: Graph) =>
      if p.origin in AdjacencyAt(g.nodes, node).preds && p.destination in AdjacencyAt(g.nodes, node).succs then 1 else 0
  }

  /** Every pair of preds x succs is in exactly one of the messages, and no other pair is in any. */
  ghost predicate Covers(tiles: seq<Graph>, node: Node, preds: set<Node>, succs: set<Node>) {
    forall p :: SumOf(CoversPair(node, p), tiles) == if p.origin in preds && p.destination in succs then 1 else 0
  }

  lemma CoversNothing(node: Node, preds: set<Node>, succs: set<Node>)
    requires preds == {} || succs == {}
    ensures Covers([], node, preds, succs)
  {}

  lemma CoversOne(g: Graph, node: Node)
    ensures Covers([g], node, AdjacencyAt(g.nodes, node).preds, AdjacencyAt(g.nodes, node).succs)
  {
    forall p ensures SumOf(CoversPair(node, p), [g]) == CoversPair(node, p)(g) {
      SumOfOne(CoversPair(node, p), g);
    }
  }

  lemma CoversMoreSuccs(a: seq<Graph>, b: seq<Graph>, node: Node, preds: set<Node>, succsA: set<Node>,
                        succsB: set<Node>)
    requires Covers(a, node, preds, succsA) && Covers(b, node, preds, succsB) && succsA !! succsB
    ensures Covers(a + b, node, preds, succsA + succsB)
  {
    forall p { SumOfConcat(CoversPair(node, p), a, b); }
  }

  lemma CoversMorePreds(a: seq<Graph>, b: seq<Graph>, node: Node, predsA: set<Node>, predsB: set<Node>,
                        succs: set<Node>)
    requires Covers(a, node, predsA, succs) && Covers(b, node, predsB, succs) && predsA !! predsB
    ensures Covers(a + b, node, predsA + predsB, succs)
  {
    forall p { SumOfConcat(CoversPair(node, p), a, b); }
  }

  /** A one-node message within the given dimensions. */
  ghost predicate IsTile(client: ClientId, node: Node, rows: nat, columns: nat, g: Graph) {
    && g.client == client && g.nodes.Keys == {node}
    && |AdjacencyAt(g.nodes, node).preds| <= rows && |AdjacencyAt(g.nodes, node).succs| <= columns
  }

  ghost function TileSize(node: Node, g: Graph): nat {
    |AdjacencyAt(g.nodes, node).preds| * |AdjacencyAt(g.nodes, node).succs|
  }

  /** Tiles of at most rows x columns pairs, the first of which has exactly that size. */
  ghost predicate Tiles(client: ClientId, node: Node, rows: nat, columns: nat, tiles: seq<Graph>) {
    && (forall g :: g in tiles ==> IsTile(client, node, rows, columns, g))
    && |tiles| > 0
    && |AdjacencyAt(tiles[0].nodes, node).preds| == rows && |AdjacencyAt(tiles[0].nodes, node).succs| == columns
  }

  lemma MoreTiles(client: ClientId, node: Node, rows: nat, columns: nat, tiles: seq<Graph>, few: nat, more: seq<Graph>)
    requires (tiles == [] && few == rows) || Tiles(client, node, rows, columns, tiles)
    requires few <= rows && Tiles(client, node, few, columns, more)
    ensures Tiles(client, node, rows, columns, tiles + more)
  {
    forall g | g in more ensures IsTile(client, node, rows, columns, g) {
      assert IsTile(client, node, few, columns, g);
    }
  }

  lemma OneMoreTile(client: ClientId, node: Node, rows: nat, columns: nat, tiles: seq<Graph>, tile: Graph)
    requires if tiles == [] then |AdjacencyAt(tile.nodes, node).succs| == columns
             else Tiles(client, node, rows, columns, tiles)
    requires IsTile(client, node, rows, columns, tile) && |AdjacencyAt(tile.nodes, node).preds| == rows
    ensures Tiles(client, node, rows, columns, tiles + [tile])
  {}

  /** `list[i : i + chunk]`. */
  function Slice(list: seq<Node>, i: nat, chunk: nat): seq<Node>
    requires i <= |list|
  {
    list[i..Min(i + chunk, |list|)]
  }

  /** What precedes position i of range(0, len(list), chunk). */
  function Before(list: seq<Node>, i: nat): seq<Node> {
    list[..Min(i, |list|)]
  }

  lemma NextSlice(list: seq<Node>, i: nat, chunk: nat)
    requires Distinct(list) && i < |list| && chunk > 0
    ensures ElementsOf(Before(list, i + chunk)) == ElementsOf(Before(list, i)) + ElementsOf(Slice(list, i, chunk))
    ensures ElementsOf(Before(list, i)) !! ElementsOf(Slice(list, i, chunk))
    ensures |ElementsOf(Slice(list, i, chunk))| == Min(chunk, |list| - i)
  {
    assert Before(list, i + chunk) == Before(list, i) + Slice(list, i, chunk);
    ElementCount(Slice(list, i, chunk));
  }

  /** The row of tiles when the loop stands at position i of the successors. */
  ghost predicate RowSoFar(client: ClientId, node: Node, pchunk: set<Node>, succs: seq<Node>, chunk: nat, i: nat,
                           row: seq<Graph>)
  {
    && Covers(row, node, pchunk, ElementsOf(Before(succs, i)))
    && (if i == 0 then row == [] else row != [] && Tiles(client, node, |pchunk|, Min(chunk, |succs|), row))
  }

  lemma RowStep(client: ClientId, node: Node, pchunk: set<Node>, succs: seq<Node>, chunk: nat, i: nat, row: seq<Graph>,
                tile: Graph)
    requires Distinct(succs) && i < |succs| && chunk > 0
    requires RowSoFar(client, node, pchunk, succs, chunk, i, row)
    requires tile == Graph(client, map[node := Adjacency(pchunk, ElementsOf(Slice(succs, i, chunk)))])
    ensures RowSoFar(client, node, pchunk, succs, chunk, i + chunk, row + [tile])
  {
    NextSlice(succs, i, chunk);
    hide Covers, Distinct, Tiles;
    CoversOne(tile, node);
    CoversMoreSuccs(row, [tile], node, pchunk, ElementsOf(Before(succs, i)), ElementsOf(Slice(succs, i, chunk)));
    OneMoreTile(client, node, |pchunk|, Min(chunk, |succs|), row, tile);
  }

  /** The inner loop: one chunk of predecessors against every chunk of successors. */
  method TileRow(client: ClientId, node: Node, pchunk: set<Node>, succs: seq<Node>, chunk: nat)
    returns (row: seq<Graph>)
    requires Distinct(succs) && succs != [] && chunk > 0
    ensures Covers(row, node, pchunk, ElementsOf(succs))
    ensures Tiles(client, node, |pchunk|, Min(chunk, |succs|), row)
  {
    row := [];
    var i := 0;
    CoversNothing(node, pchunk, {});
    assert ElementsOf(Before(succs, 0)) == {};
    hide Covers, Tiles;
    while i < |succs|
      invariant 0 <= i && RowSoFar(client, node, pchunk, succs, chunk, i, row)
    {
      var schunk := ElementsOf(Slice(succs, i, chunk));
      var tile := Graph(client, map[node := Adjacency(pchunk, schunk)]);
      RowStep(client, node, pchunk, succs, chunk, i, row, tile);
      row := row + [tile];
      i := i + chunk;
    }
    assert Before(succs, i) == succs;
  }

  /** The outer loop, over the chunks of predecessors. */
  method TileRows(client: ClientId, node: Node, preds: seq<Node>, succs: seq<Node>, chunkP: nat, chunkS: nat)
    returns (tiles: seq<Graph>)
    requires Distinct(preds) && Distinct(succs) && preds != [] && succs != [] && chunkP > 0 && chunkS > 0
    ensures Covers(tiles, node, ElementsOf(preds), ElementsOf(succs))
    ensures Tiles(client, node, Min(chunkP, |preds|), Min(chunkS, |succs|), tiles)
  {
    hide Covers, Distinct, Tiles, ElementsOf, Before, Slice;
    tiles := [];
    var i := 0;
    CoversNothing(node, {}, ElementsOf(succs));
    BeforeEnds(preds, 0);
    while i < |preds|
      invariant 0 <= i
      invariant Covers(tiles, node, ElementsOf(Before(preds, i)), ElementsOf(succs))
      invariant if i == 0 then tiles == [] else Tiles(client, node, Min(chunkP, |preds|), Min(chunkS, |succs|), tiles)
    {
      NextSlice(preds, i, chunkP);
      var pchunk := ElementsOf(Slice(preds, i, chunkP));
      var row := TileRow(client, node, pchunk, succs, chunkS);
      CoversMorePreds(tiles, row, node, ElementsOf(Before(preds, i)), pchunk, ElementsOf(succs));
      MoreTiles(client, node, Min(chunkP, |preds|), Min(chunkS, |succs|), tiles, |pchunk|, row);
      tiles := tiles + row;
      i := i + chunkP;
    }
    BeforeEnds(preds, i);
  }

  lemma BeforeEnds(list: seq<Node>, i: nat)
    ensures i == 0 ==> ElementsOf(Before(list, i)) == {}
    ensures i >= |list| ==> Before(list, i) == list
  {}

  /** What a split hub must become. */
  ghost predicate IsSplit(threshold: nat, client: ClientId, node: Node, preds: set<Node>, succs: set<Node>,
                          tiles: seq<Graph>)
    requires preds != {} && succs != {}
  {
    && Covers(tiles, node, preds, succs)
    && Tiles(client, node, Min(ChunkSize(threshold, |preds|, |succs|), |preds|),
             Min(ChunkSize(threshold, |succs|, |preds|), |succs|), tiles)
  }

  /** Cuts the pairs of a hub into tiles; the chunk sizes are the square roots of the ratios. */
  method SaltedTiles(threshold: nat, client: ClientId, node: Node, preds: set<Node>, succs: set<Node>)
    returns (tiles: seq<Graph>)
    requires preds != {} && succs != {}
    ensures IsSplit(threshold, client, node, preds, succs, tiles)
  {
    hide Covers, Tiles, ChunkSize, Lists;
    var chunkP := ChunkSize(threshold, |preds|, |succs|);
    var chunkS := ChunkSize(threshold, |succs|, |preds|);
    var predsList := ListOf(preds);
    var succsList := ListOf(succs);
    ListsAll(predsList, preds);
    ListsAll(succsList, succs);
    tiles := TileRows(client, node, predsList, succsList, chunkP, chunkS);
  }

  lemma TileSizes(client: ClientId, node: Node, rows: nat, columns: nat, tiles: seq<Graph>)
    requires Tiles(client, node, rows, columns, tiles)
    ensures forall g :: g in tiles ==> TileSize(node, g) <= rows * columns
    ensures tiles[0] in tiles && TileSize(node, tiles[0]) == rows * columns
  {
    forall g | g in tiles ensures TileSize(node, g) <= rows * columns {
      assert IsTile(client, node, rows, columns, g);
      ProductMonotone(|AdjacencyAt(g.nodes, node).preds|, rows, |AdjacencyAt(g.nodes, node).succs|, columns);
    }
  }

  /** Every tile is within the threshold exactly when the hub is not too lopsided. */
  lemma TilesFit(threshold: nat, client: ClientId, node: Node, preds: set<Node>, succs: set<Node>, tiles: seq<Graph>)
    requires preds != {} && succs != {}
    requires threshold > 0 && |preds| * |succs| > threshold
    requires IsSplit(threshold, client, node, preds, succs, tiles)
    ensures (forall g :: g in tiles ==> TileSize(node, g) <= threshold) <==>
            threshold * |succs| < (threshold + 1) * (threshold + 1) * |preds|
              && threshold * |preds| < (threshold + 1) * (threshold + 1) * |succs|
  {
    var rows, columns := Min(ChunkSize(threshold, |preds|, |succs|), |preds|),
      Min(ChunkSize(threshold, |succs|, |preds|), |succs|);
    TileSizes(client, node, rows, columns, tiles);
    TilesWithinThreshold(threshold, |preds|, |succs|);
    assert rows * columns == LargestTile(threshold, |preds|, |succs|);
    hide Covers, Tiles, TileSize, ChunkSize;
    forall g | g in tiles && rows * columns <= threshold ensures TileSize(node, g) <= threshold {}
  }
}

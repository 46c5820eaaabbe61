/** A hub sent twice. The prune node has no file for the client when it checkpoints. A hub's line reaches the
    disk, the process dies, and restore, which knows no length for the file, leaves the line there. The graph
    is delivered again, the hub's tiles are sent for both lines, and every pair of it is counted twice. */
module HubTwice {
  import opened Common
  import opened Spill
  import opened Uc4Graph
  import opened GraphLedger
  import opened Uc4Prune

  const CLIENT: ClientId := 7
  const HUB: Node := 0
  const TARGET: Node := -1

  function Sources(n: nat): (s: set<Node>)
    ensures |s| == n + 1 && 1 in s && forall i :: i in s ==> 1 <= i <= n + 1
  {
    if n == 0 then {1} else Sources(n - 1) + {n + 1}
  }

  /** One node with one more pair than the split threshold. */
  function Star(n: nat): (g: Graph)
    ensures g.client == CLIENT
  {
    Graph(CLIENT, map[HUB := Adjacency(Sources(n), {TARGET})])
  }

  lemma StarCounts(n: nat)
    ensures forall i :: i in Sources(n) ==> Hits([Star(n)], Path(i, TARGET)) == 1
    ensures forall m :: Appearances([Star(n)], m) == if m == HUB then 1 else 0
  {
    forall m ensures Appearances([Star(n)], m) == if m == HUB then 1 else 0 {
      AppearancesSnoc([], Star(n), m);
      assert [] + [Star(n)] == [Star(n)] && 1 in Sources(n);
    }
    forall i | i in Sources(n) ensures Hits([Star(n)], Path(i, TARGET)) == 1 {
      HitsSnoc([], Star(n), Path(i, TARGET));
      assert [] + [Star(n)] == [Star(n)];
      assert Carriers(Star(n).nodes, Path(i, TARGET)) == {HUB};
    }
  }

  /** Smaller at every element and equal in all: equal at every element. */
  lemma {:induction false} EqualSums<T(!new)>(f: T -> nat, g: T -> nat, s: seq<T>)
    requires (forall x :: x in s ==> f(x) <= g(x)) && SumOf(f, s) >= SumOf(g, s)
    ensures forall x :: x in s ==> f(x) == g(x)
  {
    if s != [] {
      SumOfBelow(f, g, s[1..]);
      EqualSums(f, g, s[1..]);
    }
  }

  lemma {:induction false} SumOfBelow<T(!new)>(f: T -> nat, g: T -> nat, s: seq<T>)
    requires forall x :: x in s ==> f(x) <= g(x)
    ensures SumOf(f, s) <= SumOf(g, s)
  {
    if s != [] {
      SumOfBelow(f, g, s[1..]);
    }
  }

  /** If the file counts each pair of the star as often as it has lines of the hub, each such line has all of them. */
  ghost predicate FullLine(n: nat, line: Line) {
    Relevant(line.adjacency) ==>
      line.node == HUB && Sources(n) <= line.adjacency.preds && TARGET in line.adjacency.succs
  }

  lemma LinesAreFull(n: nat, lines: seq<Line>)
    requires forall i :: i in Sources(n) ==> LinePairs(lines, Path(i, TARGET)) == 2
    requires forall m :: LineCount(lines, m) == if m == HUB then 2 else 0
    ensures forall line :: line in lines ==> FullLine(n, line)
  {
    forall line | line in lines && Relevant(line.adjacency) ensures FullLine(n, line) {
      CountsALine(lines, line);
      forall i | i in Sources(n) ensures i in line.adjacency.preds && TARGET in line.adjacency.succs {
        HasPair(lines, Path(i, TARGET), line);
      }
    }
  }

  lemma HasPair(lines: seq<Line>, p: Path, line: Line)
    requires LinePairs(lines, p) >= LineCount(lines, HUB) && forall m :: m != HUB ==> LineCount(lines, m) == 0
    requires line in lines && Relevant(line.adjacency)
    ensures p.origin in line.adjacency.preds && p.destination in line.adjacency.succs
  {
    forall other | other in lines ensures LinePair(p)(other) <= LineOf(HUB)(other) {
      if Relevant(other.adjacency) {
        CountsALine(lines, other);
      }
    }
    CountsALine(lines, line);
    EqualSums(LinePair(p), LineOf(HUB), lines);
  }

  lemma FullLineCounts(n: nat, line: Line)
    requires FullLine(n, line)
    ensures LineOf(HUB)(line) <= HubPair(n, Sources(n), {TARGET}, Path(1, TARGET))(line)
  {
    if Relevant(line.adjacency) {
      assert line.adjacency.preds * Sources(n) == Sources(n);
      assert line.adjacency.succs * {TARGET} == {TARGET};
    }
  }

  lemma HubLinesCount(n: nat, lines: seq<Line>)
    requires forall line :: line in lines ==> FullLine(n, line)
    ensures LineCount(lines, HUB) <= HubPairs(n, Sources(n), {TARGET}, lines, Path(1, TARGET))
  {
    hide FullLine, Sources, Relevant;
    forall line | line in lines ensures LineOf(HUB)(line) <= HubPair(n, Sources(n), {TARGET}, Path(1, TARGET))(line) {
      FullLineCounts(n, line);
    }
    hide HubPair, LineOf;
    SumOfBelow(LineOf(HUB), HubPair(n, Sources(n), {TARGET}, Path(1, TARGET)), lines);
  }

  /** The node after the crash and the replay. */
  method Crash(threshold: nat, chunkSize: nat) returns (node: UC4PruneMergeFn)
    ensures fresh(node) && fresh(node.spill) && node.Valid() && node.splitThreshold == threshold
    ensures SeqAt(node.rights, CLIENT) == [Star(threshold)]
    ensures SeqAt(node.lefts, CLIENT) == [HighDegree(CLIENT, Sources(threshold), {TARGET})]
    ensures forall p :: LinePairs(node.spill.File(Key(CLIENT, 0)), p) == 2 * Hits([Star(threshold)], p)
    ensures forall m :: LineCount(node.spill.File(Key(CLIENT, 0)), m) == 2 * Appearances([Star(threshold)], m)
    ensures forall p :: LinePairs(node.extra(CLIENT), p) == Hits([Star(threshold)], p)
  {
    hide UC4PruneMergeFn.Valid, Hits, Appearances, LinePairs, LineCount, Sources, Star, Grown, OneSided;
    hide UC4PruneMergeFn.KeptIn;
    var spill := new PersistentSpill<Line>((k, f) => true);
    node := new UC4PruneMergeFn(spill, threshold, chunkSize);
    node.Left(HighDegree(CLIENT, Sources(threshold), {TARGET}));
    ghost var before, atCrash := node.MergeThroughCrash([OfGraph(Star(threshold))], [OfGraph(Star(threshold))]);
    OneMoreForAll([], OfGraph(Star(threshold)));
    assert [] + [OfGraph(Star(threshold))] == [OfGraph(Star(threshold))];
    assert GraphsFor(CLIENT, [OfGraph(Star(threshold))]) == [Star(threshold)];
    assert DegreesFor(CLIENT, [OfGraph(Star(threshold))]) == [];
    node.RecordsAll();
    assert FileAt(before, Key(CLIENT, 0)) == Closed([]);
    assert Records(FileAt(atCrash, Key(CLIENT, 0)).Content(), [Star(threshold)], []);
    assert node.extra(CLIENT) == node.KeptIn(before, atCrash, CLIENT);
    KeptTwice(node, before, atCrash, [Star(threshold)]);
  }

  lemma KeptTwice(node: UC4PruneMergeFn, before: map<Key, FileState<Line>>, atCrash: map<Key, FileState<Line>>,
                  rights: seq<Graph>)
    requires FileAt(before, Key(CLIENT, 0)) == Closed([]) && AllOnDisk(atCrash)
    requires Records(FileAt(atCrash, Key(CLIENT, 0)).Content(), rights, [])
    requires node.extra(CLIENT) == node.KeptIn(before, atCrash, CLIENT)
    requires Records(FileAt(node.spill.files, Key(CLIENT, 0)).Content(), rights, node.extra(CLIENT))
    ensures forall p :: LinePairs(node.spill.File(Key(CLIENT, 0)), p) == 2 * Hits(rights, p)
    ensures forall m :: LineCount(node.spill.File(Key(CLIENT, 0)), m) == 2 * Appearances(rights, m)
    ensures forall p :: LinePairs(node.extra(CLIENT), p) == Hits(rights, p)
  {
    var f := FileAt(atCrash, Key(CLIENT, 0));
    assert f == f.Flushed();
    assert node.extra(CLIENT) == f.disk[0..] == f.Content();
    assert (forall p :: LinePairs([], p) == 0) && (forall m :: LineCount([], m) == 0);
    hide Hits, Appearances, LinePairs, LineCount, FileAt, AllOnDisk;
  }

  lemma HighOfOne(m: HighDegree)
    ensures HiOut([m]) == m.hiOut && HiIn([m]) == m.hiIn
  {
    assert forall n :: n in [m] <==> n == m;
    assert forall i :: i in HiOut([m]) <==> i in m.hiOut;
    assert forall i :: i in HiIn([m]) <==> i in m.hiIn;
  }

  /** With any thresholds: a path through one intermediary is sent on as passing two. */
  method OneBecomesTwo(threshold: nat, chunkSize: nat) returns (ghost rights: seq<Graph>, outs: seq<Graph>)
    ensures rights == [Star(threshold)] && Hits(rights, Path(1, TARGET)) == 1
    ensures Hits(outs, Path(1, TARGET)) == 2
  {
    hide UC4PruneMergeFn.Valid, Hits, Appearances, LinePairs, LineCount, Sources, Star, PruneResult, HubPairs, OneSided;
    var node := Crash(threshold, chunkSize);
    rights := SeqAt(node.rights, CLIENT);
    ghost var lines := node.spill.File(Key(CLIENT, 0));
    StarCounts(threshold);
    LinesAreFull(threshold, lines);
    HubLinesCount(threshold, lines);
    HighOfOne(HighDegree(CLIENT, Sources(threshold), {TARGET}));
    outs := node.GetResult(CLIENT);
  }
}

/** UC4AggregateGraphs: unions the partial graphs of its shard, through spill files, and emits
    every node once with its whole neighbourhood. */
module Uc4AggregateGraphs {
  import opened Common
  import opened Spill
  import opened Uc4Graph
  import opened GraphLedger
  import opened NodeRouting

  const SPILL_THRESHOLD := 100_000
  const AFFINITY_SHARDS := 100

  ghost predicate WholeNodes(affinityHash: Node -> int, client: ClientId, ins: seq<Graph>, r: Routed<Graph>) {
    && r.message.client == client
    && (forall n :: n in r.message.nodes ==>
          r.message.nodes[n] == Merged(ins, n) && r.affinity == affinityHash(n) % AFFINITY_SHARDS)
  }

  /** What one aggregator must emit after the graphs `ins`: whole neighbourhoods only, no node
      twice, and no node with a neighbour left out. */
  ghost predicate GraphsResult(affinityHash: Node -> int, client: ClientId, ins: seq<Graph>, outs: seq<Routed<Graph>>) {
    && (forall r :: r in outs ==> WholeNodes(affinityHash, client, ins, r))
    && (forall n :: Occurrences(outs, n) <= 1)
    && (forall n :: Merged(ins, n) != NO_NEIGHBOURS ==> Occurrences(outs, n) == 1)
  }

  /** A node that is due appears once if it has a neighbour and at most once otherwise; a node
      that is not due does not appear. */
  ghost predicate Once(ins: seq<Graph>, outs: seq<Routed<Graph>>, n: Node, due: bool) {
    && Occurrences(outs, n) <= (if due then 1 else 0)
    && (due && Merged(ins, n) != NO_NEIGHBOURS ==> Occurrences(outs, n) == 1)
  }

  lemma OnceConcat(ins: seq<Graph>, a: seq<Routed<Graph>>, dueA: bool, b: seq<Routed<Graph>>, dueB: bool, n: Node)
    requires Once(ins, a, n, dueA) && Once(ins, b, n, dueB) && !(dueA && dueB)
    ensures Once(ins, a + b, n, dueA || dueB)
  {
    OccurrencesConcat(a, b, n);
  }

  lemma OnceIsAll(affinityHash: Node -> int, client: ClientId, ins: seq<Graph>, outs: seq<Routed<Graph>>)
    requires forall r :: r in outs ==> WholeNodes(affinityHash, client, ins, r)
    requires forall n :: Once(ins, outs, n, true)
    ensures GraphsResult(affinityHash, client, ins, outs)
  {
    forall n ensures Occurrences(outs, n) <= 1 && (Merged(ins, n) != NO_NEIGHBOURS ==> Occurrences(outs, n) == 1) {
      assert Once(ins, outs, n, true);
    }
  }

  class UC4AggregateGraphs {
    const ledger: GraphLedger
    const affinityHash: Node -> int
    const threshold: nat
    ghost var history: map<ClientId, seq<Graph>>

    ghost function Hist(client: ClientId): seq<Graph>
      reads this
    {
      SeqAt(history, client)
    }

    /** Conservation: for every client and node, memory plus disk is the union of the partial
        neighbour sets received. */
    ghost predicate Valid()
      reads this, ledger, ledger.spill
    {
      && ledger.Valid()
      && (forall client, n :: ledger.Held(client, n) == Merged(Hist(client), n))
    }

    constructor (ledger: GraphLedger, affinityHash: Node -> int, threshold: nat := SPILL_THRESHOLD)
      requires ledger.Valid() && forall cl, n :: ledger.Held(cl, n) == NO_NEIGHBOURS
      ensures Valid() && history == map[]
      ensures this.ledger == ledger && this.affinityHash == affinityHash
    {
      this.ledger, this.affinityHash, this.threshold := ledger, affinityHash, threshold;
      history := map[];
    }

    method Aggregate(msg: Graph)
      requires Valid()
      modifies this, ledger, ledger.spill
      ensures Valid()
      ensures history == old(history)[msg.client := old(Hist(msg.client)) + [msg]]
      ensures old(AllBelow(ledger.graphs, threshold)) ==> AllBelow(ledger.graphs, threshold)
    {
      hide AllBelow, Merged, Join, Grown, AdjacencyAt, GraphLedger.Valid, GraphLedger.Held;
      Merge(msg);
      forall n { MergedSnoc(Hist(msg.client), msg, n); }
      history := history[msg.client := Hist(msg.client) + [msg]];
    }

    method MergeAll(msgs: seq<Graph>)
      requires ledger.Valid()
      modifies this, ledger, ledger.spill
      ensures ledger.Valid() && Grown(old(ledger.spill.files), ledger.spill.files)
      ensures forall cl :: Hist(cl) == old(Hist(cl)) + Where(GraphsFrom(cl), msgs)
      ensures forall cl, n ::
                ledger.Held(cl, n) == Join(old(ledger.Held(cl, n)), Merged(Where(GraphsFrom(cl), msgs), n))
    {
      hide Grown, Merged, Join, Where, GraphsFrom, AdjacencyAt, GraphLedger.Valid, GraphLedger.Held;
      GrownNothing(ledger.spill.files);
      var i := 0;
      forall cl { NoneMerged(cl); }
      while i < |msgs|
        invariant 0 <= i <= |msgs| && ledger.Valid() && Grown(old(ledger.spill.files), ledger.spill.files)
        invariant forall cl :: Hist(cl) == old(Hist(cl)) + Where(GraphsFrom(cl), msgs[..i])
        invariant forall cl, n ::
                    ledger.Held(cl, n) == Join(old(ledger.Held(cl, n)), Merged(Where(GraphsFrom(cl), msgs[..i]), n))
      {
        ghost var before, msg := ledger.spill.files, msgs[i];
        Merge(msgs[i]);
        GrownTwice(old(ledger.spill.files), before, ledger.spill.files);
        assert msgs[..i + 1] == msgs[..i] + [msg];
        forall cl, n
          ensures ledger.Held(cl, n) == Join(old(ledger.Held(cl, n)), Merged(Where(GraphsFrom(cl), msgs[..i + 1]), n))
        {
          MergedOne(msgs[..i], msg, cl, n, old(ledger.Held(cl, n)));
        }
        ghost var earlier := history;
        history := history[msg.client := Hist(msg.client) + [msg]];
        forall cl ensures Hist(cl) == old(Hist(cl)) + Where(GraphsFrom(cl), msgs[..i + 1]) {
          GraphsOneMore(msgs[..i], msg, cl);
          assert Hist(cl) == SeqAt(earlier, cl) + (if msg.client == cl then [msg] else []);
        }
        i := i + 1;
      }
      assert msgs[..i] == msgs;
    }

    /** A checkpoint, some more messages, the death of the process, a restore and a replay. `before` is
        what the files were after the checkpoint, `atCrash` and `memory` what the files and the memory
        were when the process died. Every node is held with what was received before the checkpoint and
        in the replay, and besides with what the lines hold that were lost but had reached an uncovered
        file. That is right if and only if those lines hold nothing else: so when every file was covered
        or did not grow, and whenever the lost messages are delivered again. */
    method MergeThroughCrash(lost: seq<Graph>, replay: seq<Graph>)
      returns (ghost before: map<Key, FileState<Line>>, ghost atCrash: map<Key, FileState<Line>>,
               ghost memory: map<ClientId, map<Node, Adjacency>>)
      requires Valid()
      modifies this, ledger, ledger.spill
      ensures AllOnDisk(before) && Grown(before, atCrash)
      ensures forall cl, n :: ledger.OnDisk(before, cl, n) == old(ledger.Held(cl, n))
      ensures forall k :: FileAt(before, k).Open? <==>
                old(FileAt(ledger.spill.files, k)).Open? || ledger.InMemory(old(ledger.graphs), k)
      ensures forall cl, n :: Join(AdjacencyAt(NodesAt(memory, cl), n), ledger.OnDisk(atCrash, cl, n))
                           == Join(Merged(old(Hist(cl)), n), Merged(Where(GraphsFrom(cl), lost), n))
      ensures ledger.Valid()
      ensures forall cl :: Hist(cl) == old(Hist(cl)) + Where(GraphsFrom(cl), replay)
      ensures forall cl, n :: ledger.Held(cl, n) == Join(Merged(Hist(cl), n), ledger.Kept(before, atCrash, cl, n))
      ensures Valid() <==> forall cl, n :: Within(ledger.Kept(before, atCrash, cl, n), Merged(Hist(cl), n))
      ensures Covered(before, atCrash) || (forall m :: m in lost ==> m in replay) ==> Valid()
    {
      hide Grown, Merged, Join, Within, Where, GraphsFrom, Filed, FileAt, AllOnDisk, Covered, OpenLengths;
      hide FileState.Content, FileState.Flushed, AdjacencyAt, GraphLedger.Valid, GraphLedger.Kept;
      hide GraphLedger.OnDisk, GraphLedger.InMemory;
      var committed := ledger.SnapshotState();
      before := ledger.spill.files;
      ghost var saved := history;
      MergeAll(lost);
      atCrash, memory := ledger.spill.files, ledger.graphs;
      ledger.CrashAndRestore(committed, before);
      forall cl, n
        ensures Within(ledger.Kept(before, atCrash, cl, n), Merged(SeqAt(saved, cl) + Where(GraphsFrom(cl), lost), n))
      {
        WithinParts(ledger.OnDisk(before, cl, n), ledger.Kept(before, atCrash, cl, n),
                    Join(Merged(SeqAt(saved, cl), n), Merged(Where(GraphsFrom(cl), lost), n)));
        KeptWithin(SeqAt(saved, cl), Where(GraphsFrom(cl), lost), n, ledger.Kept(before, atCrash, cl, n));
      }
      history := saved;
      MergeAll(replay);
      forall a { NothingWithin(a); }
      forall cl, n {
        ReplayedWith(SeqAt(saved, cl), lost, replay, cl, n, ledger.Kept(before, atCrash, cl, n));
      }
    }

    method Merge(msg: Graph)
      requires ledger.Valid()
      modifies ledger, ledger.spill
      ensures ledger.Valid() && Grown(old(ledger.spill.files), ledger.spill.files)
      ensures forall cl, n ::
        ledger.Held(cl, n) == if cl == msg.client then Join(old(ledger.Held(cl, n)), AdjacencyAt(msg.nodes, n))
          else old(ledger.Held(cl, n))
      ensures old(AllBelow(ledger.graphs, threshold)) ==> AllBelow(ledger.graphs, threshold)
    {
      var nodes := MergeNodes(NodesAt(ledger.graphs, msg.client), msg.nodes);
      forall a, b, c ensures Join(Join(a, b), c) == Join(Join(a, c), b) { JoinSwap(a, b, c); }
      hide Join, Grown;
      GrownNothing(ledger.spill.files);
      ledger.Store(msg.client, nodes);
      if |ledger.graphs[msg.client]| >= threshold {
        ledger.SpillToDisk(msg.client);
      }
    }

    method MergeNodes(nodes0: map<Node, Adjacency>, more: map<Node, Adjacency>) returns (nodes: map<Node, Adjacency>)
      ensures forall n :: AdjacencyAt(nodes, n) == Join(AdjacencyAt(nodes0, n), AdjacencyAt(more, n))
    {
      hide MergedBut, Join, AdjacencyAt;
      nodes := nodes0;
      var todo := more.Keys;
      MergeStarts(nodes0, more);
      while todo != {}
        invariant todo <= more.Keys && MergedBut(nodes0, more, todo, nodes)
        decreases |todo|
      {
        var n := Choose(todo);
        MergeOne(nodes0, more, todo, nodes, n);
        nodes := nodes[n := Join(AdjacencyAt(nodes, n), more[n])];
        todo := todo - {n};
      }
      MergedFully(nodes0, more, nodes);
    }

    /** Every node outside `todo` has been united with what the message holds for it. */
    ghost predicate MergedBut(nodes0: map<Node, Adjacency>, more: map<Node, Adjacency>, todo: set<Node>,
                              nodes: map<Node, Adjacency>)
    {
      forall n ::
        AdjacencyAt(nodes, n) == if n in todo then AdjacencyAt(nodes0, n)
          else Join(AdjacencyAt(nodes0, n), AdjacencyAt(more, n))
    }

    lemma MergeStarts(nodes0: map<Node, Adjacency>, more: map<Node, Adjacency>)
      ensures MergedBut(nodes0, more, more.Keys, nodes0)
    {
      forall a { JoinUnit(a); }
    }

    lemma MergeOne(nodes0: map<Node, Adjacency>, more: map<Node, Adjacency>, todo: set<Node>,
                   nodes: map<Node, Adjacency>, q: Node)
      requires MergedBut(nodes0, more, todo, nodes) && q in todo && todo <= more.Keys
      ensures MergedBut(nodes0, more, todo - {q}, nodes[q := Join(AdjacencyAt(nodes, q), more[q])])
    {
      hide Join;
    }

    lemma MergedFully(nodes0: map<Node, Adjacency>, more: map<Node, Adjacency>, nodes: map<Node, Adjacency>)
      requires MergedBut(nodes0, more, {}, nodes)
      ensures forall n :: AdjacencyAt(nodes, n) == Join(AdjacencyAt(nodes0, n), AdjacencyAt(more, n))
    {}

    /** Re-unions every shard file and emits each node once, grouped by affinity. */
    method GetResult(client: ClientId) returns (outs: seq<Routed<Graph>>)
      requires Valid()
      modifies ledger, ledger.spill
      ensures Valid() && client !in ledger.graphs
      ensures GraphsResult(affinityHash, client, Hist(client), outs)
    {
      var shards := ledger.ShardsToRead(client);
      outs := EmitShards(client, shards);
      OnceIsAll(affinityHash, client, Hist(client), outs);
    }

    method EmitShards(client: ClientId, shards: seq<int>) returns (outs: seq<Routed<Graph>>)
      requires Valid() && client !in ledger.graphs && Increasing(shards)
      requires forall n :: ledger.Shard(n) !in shards ==> Merged(Hist(client), n) == NO_NEIGHBOURS
      modifies ledger.spill
      ensures Valid()
      ensures forall r :: r in outs ==> WholeNodes(affinityHash, client, Hist(client), r)
      ensures forall n :: Once(Hist(client), outs, n, true)
    {
      hide Once, WholeNodes, Merged, Valid, GraphLedger.Valid, GraphLedger.Held;
      outs := [];
      OnceAtStart(client, shards);
      var i := 0;
      while i < |shards|
        invariant 0 <= i <= |shards| && Valid()
        invariant forall r :: r in outs ==> WholeNodes(affinityHash, client, Hist(client), r)
        invariant forall n :: Once(Hist(client), outs, n, ledger.Shard(n) !in shards[i..])
      {
        var more := EmitShard(client, shards[i]);
        assert shards[i..] == [shards[i]] + shards[i + 1..];
        assert shards[i] !in shards[i + 1..];
        forall n ensures Once(Hist(client), outs + more, n, ledger.Shard(n) !in shards[i + 1..]) {
          OnceConcat(Hist(client), outs, ledger.Shard(n) !in shards[i..], more, ledger.Shard(n) == shards[i], n);
        }
        outs := outs + more;
        i := i + 1;
      }
      forall n ensures Once(Hist(client), outs, n, true) {
        assert Once(Hist(client), outs, n, ledger.Shard(n) !in shards[i..]);
      }
    }

    lemma OnceAtStart(client: ClientId, shards: seq<int>)
      requires forall n :: ledger.Shard(n) !in shards ==> Merged(Hist(client), n) == NO_NEIGHBOURS
      ensures forall n :: Once(Hist(client), [], n, ledger.Shard(n) !in shards[0..])
    {
      assert shards[0..] == shards;
    }

    /** One shard file: the nodes of this shard, each once with its whole neighbourhood. */
    method EmitShard(client: ClientId, shard: int) returns (outs: seq<Routed<Graph>>)
      requires Valid() && client !in ledger.graphs
      modifies ledger.spill
      ensures Valid()
      ensures forall r :: r in outs ==> WholeNodes(affinityHash, client, Hist(client), r)
      ensures forall n :: Once(Hist(client), outs, n, ledger.Shard(n) == shard)
    {
      hide Filed, Occurrences, Merged;
      var lines := ledger.ReadLines(client, shard);
      var nodes := UnionLines(shard, lines);
      outs := RouteNodes(affinityHash, AFFINITY_SHARDS, client, nodes);
      forall r | r in outs ensures WholeNodes(affinityHash, client, Hist(client), r) {
        assert FromNodes(affinityHash, AFFINITY_SHARDS, nodes, r);
        forall n | n in r.message.nodes ensures r.message.nodes[n] == Merged(Hist(client), n) {
          assert nodes[n] == AdjacencyAt(nodes, n);
        }
      }
      forall n ensures Once(Hist(client), outs, n, ledger.Shard(n) == shard) {
        assert Merged(Hist(client), n) != NO_NEIGHBOURS && ledger.Shard(n) == shard ==>
               AdjacencyAt(nodes, n) != NO_NEIGHBOURS;
      }
    }

    method UnionLines(shard: int, lines: seq<Line>) returns (nodes: map<Node, Adjacency>)
      requires ledger.InShard(shard, lines)
      ensures forall n :: AdjacencyAt(nodes, n) == Filed(lines, n)
      ensures forall n :: n in nodes ==> ledger.Shard(n) == shard
    {
      hide United, Join, AdjacencyAt;
      nodes := map[];
      var i := 0;
      UniteNone(shard, lines);
      while i < |lines|
        invariant 0 <= i <= |lines| && United(shard, lines[..i], nodes)
      {
        var line := lines[i];
        assert lines[..i + 1] == lines[..i] + [line];
        UniteOne(shard, lines[..i], line, nodes);
        nodes := nodes[line.node := Join(AdjacencyAt(nodes, line.node), line.adjacency)];
        i := i + 1;
      }
      assert lines[..i] == lines;
      UnitedAre(shard, lines, nodes);
    }

    /** The dictionary holds what these lines of a shard hold. */
    ghost predicate United(shard: int, lines: seq<Line>, nodes: map<Node, Adjacency>) {
      && (forall n :: AdjacencyAt(nodes, n) == Filed(lines, n))
      && (forall n :: n in nodes ==> ledger.Shard(n) == shard)
    }

    lemma UniteNone(shard: int, lines: seq<Line>)
      ensures United(shard, lines[..0], map[])
    {}

    lemma UniteOne(shard: int, lines: seq<Line>, line: Line, nodes: map<Node, Adjacency>)
      requires United(shard, lines, nodes) && ledger.Shard(line.node) == shard
      ensures United(shard, lines + [line], nodes[line.node := Join(AdjacencyAt(nodes, line.node), line.adjacency)])
    {
      hide Filed, Join;
      var after := nodes[line.node := Join(AdjacencyAt(nodes, line.node), line.adjacency)];
      forall n ensures AdjacencyAt(after, n) == Filed(lines + [line], n) {
        FiledSnoc(lines, line, n);
        JoinUnit(Filed(lines, n));
      }
    }

    lemma UnitedAre(shard: int, lines: seq<Line>, nodes: map<Node, Adjacency>)
      requires United(shard, lines, nodes)
      ensures forall n :: AdjacencyAt(nodes, n) == Filed(lines, n)
      ensures forall n :: n in nodes ==> ledger.Shard(n) == shard
    {}

    method Discard(client: ClientId)
      requires Valid()
      modifies this, ledger, ledger.spill
      ensures Valid() && history == old(history)[client := []]
    {
      assert forall n :: Merged([], n) == NO_NEIGHBOURS;
      hide Merged;
      ledger.Discard(client);
      history := history[client := []];
      forall cl, n ensures ledger.Held(cl, n) == Merged(Hist(cl), n) {
        assert Hist(cl) == if cl == client then [] else old(Hist(cl));
        assert old(ledger.Held(cl, n)) == Merged(old(Hist(cl)), n);
      }
    }

    method SnapshotState() returns (committed: map<Key, nat>)
      requires Valid()
      modifies ledger, ledger.spill
      ensures Valid() && ledger.graphs == map[] && committed == OpenLengths(ledger.spill.files)
    {
      committed := ledger.SnapshotState();
    }
  }
}

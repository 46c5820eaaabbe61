/** UC4CountPaths: counts the paths a->b->c of every graph message in a bounded dictionary,
    spilling partial counts to sharded files and summing them back at the end. */
module Uc4CountPaths {
  import opened Common
  import opened Spill
  import opened Uc4Graph
  import opened PathLedger

  const SPILL_THRESHOLD := 500_000
  const AFFINITY_SHARDS := 10

  ghost function CountIn(p: Path): Routed<PathCounts> -> nat {
    (r: Routed<PathCounts>) => NumberAt(r.message.counts, p)
  }

  /** Total count of p over everything a counter emitted. */
  ghost function Emitted(outs: seq<Routed<PathCounts>>, p: Path): nat {
    SumOf(CountIn(p), outs)
  }

  lemma EmittedConcat(a: seq<Routed<PathCounts>>, b: seq<Routed<PathCounts>>, p: Path)
    ensures Emitted(a + b, p) == Emitted(a, p) + Emitted(b, p)
  {
    SumOfConcat(CountIn(p), a, b);
  }

  lemma EmittedSnoc(outs: seq<Routed<PathCounts>>, r: Routed<PathCounts>, p: Path)
    ensures Emitted(outs + [r], p) == Emitted(outs, p) + NumberAt(r.message.counts, p)
  {
    EmittedConcat(outs, [r], p);
    SumOfOne(CountIn(p), r);
  }

  /** Every emitted count is the path's full count, in a message routed by the path's affinity. */
  ghost predicate RoutedFully(affinityHash: Path -> int, client: ClientId, ins: seq<Graph>,
                              outs: seq<Routed<PathCounts>>)
  {
    forall r :: r in outs ==> r.message.client == client && FullCounts(affinityHash, ins, r)
  }

  ghost predicate FullCounts(affinityHash: Path -> int, ins: seq<Graph>, r: Routed<PathCounts>) {
    forall p :: p in r.message.counts ==>
      r.affinity == affinityHash(p) % AFFINITY_SHARDS && r.message.counts[p] == Hits(ins, p)
  }

  lemma RoutedConcat(affinityHash: Path -> int, client: ClientId, ins: seq<Graph>, a: seq<Routed<PathCounts>>,
                     b: seq<Routed<PathCounts>>)
    requires RoutedFully(affinityHash, client, ins, a) && RoutedFully(affinityHash, client, ins, b)
    ensures RoutedFully(affinityHash, client, ins, a + b)
  {}

  /** What one counter must emit after the graphs `ins`: every path it met, in exactly one
      message, with its full count, routed by the path's own affinity. */
  ghost predicate CountsResult(affinityHash: Path -> int, client: ClientId, ins: seq<Graph>,
                               outs: seq<Routed<PathCounts>>)
  {
    && RoutedFully(affinityHash, client, ins, outs)
    && (forall p :: Emitted(outs, p) == Hits(ins, p))
  }

  class UC4CountPaths {
    const ledger: PathLedger
    const affinityHash: Path -> int
    const threshold: nat
    ghost var history: map<ClientId, seq<Graph>>

    ghost function Hist(client: ClientId): seq<Graph>
      reads this
    {
      SeqAt(history, client)
    }

    /** Conservation: for every client and path, memory plus disk is the number of
        (node, pred, succ) triples of the messages aggregated so far. */
    ghost predicate Valid()
      reads this, ledger, ledger.spill
    {
      && ledger.Valid()
      && (forall client, p :: ledger.Held(client, p) == Hits(Hist(client), p))
    }

    constructor (ledger: PathLedger, affinityHash: Path -> int, threshold: nat := SPILL_THRESHOLD)
      requires ledger.Valid() && forall cl, p :: ledger.Held(cl, p) == 0
      ensures Valid() && history == map[]
      ensures this.ledger == ledger && this.affinityHash == affinityHash
    {
      this.ledger, this.affinityHash, this.threshold := ledger, affinityHash, threshold;
      history := map[];
    }

    method Aggregate(msg: Graph)
      requires Valid()
      modifies this, ledger, ledger.spill
      ensures Valid() && Grown(old(ledger.spill.files), ledger.spill.files)
      ensures history == old(history)[msg.client := old(Hist(msg.client)) + [msg]]
      ensures old(AllBelow(ledger.paths, threshold)) ==> AllBelow(ledger.paths, threshold)
    {
      hide AllBelow, Hits, Weight, Grown, PathLedger.Valid, PathLedger.Held;
      Count(msg);
      forall p { HitsSnoc(Hist(msg.client), msg, p); }
      history := history[msg.client := Hist(msg.client) + [msg]];
    }

    method Count(msg: Graph)
      requires ledger.Valid()
      modifies ledger, ledger.spill
      ensures ledger.Valid() && Grown(old(ledger.spill.files), ledger.spill.files)
      ensures forall cl, p ::
                ledger.Held(cl, p) == old(ledger.Held(cl, p)) + (if cl == msg.client then Weight(msg, p) else 0)
      ensures old(AllBelow(ledger.paths, threshold)) ==> AllBelow(ledger.paths, threshold)
    {
      hide Weight, Grown, PathLedger.Valid, PathLedger.Held;
      if msg.client !in ledger.paths {
        ledger.Store(msg.client, map[]);
      }
      CountNodes(msg);
      if |ledger.paths[msg.client]| >= threshold {
        ghost var before := ledger.spill.files;
        ledger.SpillToDisk(msg.client);
        GrownTwice(old(ledger.spill.files), before, ledger.spill.files);
      }
      OnlyOneChanged(old(ledger.paths), ledger.paths, msg.client);
    }

    lemma OnlyOneChanged(before: map<ClientId, PathDict>, after: map<ClientId, PathDict>, client: ClientId)
      requires after - {client} == before - {client} && (client in after ==> |after[client]| < threshold)
      ensures AllBelow(before, threshold) ==> AllBelow(after, threshold)
    {
      forall cl | cl in after && cl != client ensures cl in before && after[cl] == before[cl] {
        assert cl in after - {client};
      }
    }

    method CountAll(msgs: seq<Graph>)
      requires ledger.Valid()
      modifies this, ledger, ledger.spill
      ensures ledger.Valid() && Grown(old(ledger.spill.files), ledger.spill.files)
      ensures forall cl :: Hist(cl) == old(Hist(cl)) + Where(GraphsFrom(cl), msgs)
      ensures forall cl, p :: ledger.Held(cl, p) == old(ledger.Held(cl, p)) + Hits(Where(GraphsFrom(cl), msgs), p)
    {
      hide Grown, Hits, Weight, Where, GraphsFrom, PathLedger.Valid, PathLedger.Held;
      GrownNothing(ledger.spill.files);
      var i := 0;
      forall cl { NoneCounted(cl); }
      while i < |msgs|
        invariant 0 <= i <= |msgs| && ledger.Valid() && Grown(old(ledger.spill.files), ledger.spill.files)
        invariant forall cl :: Hist(cl) == old(Hist(cl)) + Where(GraphsFrom(cl), msgs[..i])
        invariant forall cl, p ::
                    ledger.Held(cl, p) == old(ledger.Held(cl, p)) + Hits(Where(GraphsFrom(cl), msgs[..i]), p)
      {
        ghost var before, msg := ledger.spill.files, msgs[i];
        Count(msgs[i]);
        GrownTwice(old(ledger.spill.files), before, ledger.spill.files);
        assert msgs[..i + 1] == msgs[..i] + [msg];
        forall cl, p { CountedOne(msgs[..i], msg, cl, p); }
        ghost var earlier := history;
        history := history[msg.client := Hist(msg.client) + [msg]];
        forall cl ensures Hist(cl) == old(Hist(cl)) + Where(GraphsFrom(cl), msgs[..i + 1]) {
          GraphsOneMore(msgs[..i], msg, cl);
          assert Hist(cl) == SeqAt(earlier, cl) + (if msg.client == cl then [msg] else []);
        }
        i := i + 1;
      }
      assert msgs[..i] == msgs;
    }

    lemma NoneCounted(client: ClientId)
      ensures Where(GraphsFrom(client), []) == [] && forall p :: Hits([], p) == 0
    {}

    lemma CountedOne(msgs: seq<Graph>, msg: Graph, client: ClientId, p: Path)
      ensures Hits(Where(GraphsFrom(client), msgs + [msg]), p)
              == Hits(Where(GraphsFrom(client), msgs), p) + (if msg.client == client then Weight(msg, p) else 0)
    {
      hide Hits, Weight, Where;
      GraphsOneMore(msgs, msg, client);
      HitsSnoc(Where(GraphsFrom(client), msgs), msg, p);
    }

    /** A checkpoint, some more messages, the death of the process, a restore and a replay. `before` is
        what the files were after the checkpoint, `atCrash` and `memory` what the files and the memory
        were when the process died. Every path is held with what was received before the checkpoint and
        in the replay, and besides with what the lines count that were lost but had reached an uncovered
        file; so the counts are right if and only if every file had an open handle at the checkpoint or
        did not grow on the disk after it. */
    method CountThroughCrash(lost: seq<Graph>, replay: seq<Graph>)
      returns (ghost before: map<Key, FileState<Line>>, ghost atCrash: map<Key, FileState<Line>>,
               ghost memory: map<ClientId, PathDict>)
      requires Valid()
      modifies this, ledger, ledger.spill
      ensures AllOnDisk(before) && Grown(before, atCrash)
      ensures forall cl, p :: ledger.OnDisk(before, cl, p) == old(ledger.Held(cl, p))
      ensures forall k :: FileAt(before, k).Open? <==>
                old(FileAt(ledger.spill.files, k)).Open? || ledger.InMemory(old(ledger.paths), k)
      ensures forall cl, p :: NumberAt(DictAt(memory, cl), p) + ledger.OnDisk(atCrash, cl, p)
                           == Hits(old(Hist(cl)), p) + Hits(Where(GraphsFrom(cl), lost), p)
      ensures ledger.Valid()
      ensures forall cl :: Hist(cl) == old(Hist(cl)) + Where(GraphsFrom(cl), replay)
      ensures forall cl, p :: ledger.Held(cl, p) == Hits(Hist(cl), p) + ledger.Kept(before, atCrash, cl, p)
      ensures forall cl, p :: ledger.Kept(before, atCrash, cl, p) <= Hits(Where(GraphsFrom(cl), lost), p)
      ensures Valid() <==> Covered(before, atCrash)
    {
      hide Grown, Hits, Where, GraphsFrom, Spilled, FileAt, AllOnDisk, Covered, FileState.Content, FileState.Flushed,
        OpenLengths;
      hide PathLedger.Valid, PathLedger.Kept, PathLedger.OnDisk, PathLedger.InMemory;
      var committed := ledger.SnapshotState();
      before := ledger.spill.files;
      ghost var saved := history;
      CountAll(lost);
      atCrash, memory := ledger.spill.files, ledger.paths;
      ledger.CrashAndRestore(committed, before);
      history := saved;
      CountAll(replay);
      forall cl, p
        ensures Hits(Hist(cl), p) == Hits(SeqAt(saved, cl), p) + Hits(Where(GraphsFrom(cl), replay), p)
      {
        HitsConcat(SeqAt(saved, cl), Where(GraphsFrom(cl), replay), p);
      }
    }

    method CountNodes(msg: Graph)
      requires ledger.Valid() && msg.client in ledger.paths
      modifies ledger, ledger.spill
      ensures ledger.Valid() && msg.client in ledger.paths && Grown(old(ledger.spill.files), ledger.spill.files)
      ensures forall cl, p ::
                ledger.Held(cl, p) == old(ledger.Held(cl, p)) + (if cl == msg.client then Weight(msg, p) else 0)
      ensures ledger.paths - {msg.client} == old(ledger.paths) - {msg.client}
    {
      hide Grown, PathLedger.Valid, PathLedger.Held, Weight, PairIn;
      GrownNothing(ledger.spill.files);
      var nodes := msg.nodes.Keys;
      assert msg.nodes.Keys - nodes == {};
      forall p ensures Visited(msg, {}, p) == 0 { VisitedEnds(msg, p); }
      while nodes != {}
        invariant nodes <= msg.nodes.Keys && ledger.Valid() && msg.client in ledger.paths
        invariant Grown(old(ledger.spill.files), ledger.spill.files)
        invariant ledger.paths - {msg.client} == old(ledger.paths) - {msg.client}
        invariant forall cl, p ::
          ledger.Held(cl, p)
            == old(ledger.Held(cl, p)) + (if cl == msg.client then Visited(msg, msg.nodes.Keys - nodes, p) else 0)
        decreases |nodes|
      {
        var n := Choose(nodes);
        ghost var done, before := msg.nodes.Keys - nodes, ledger.spill.files;
        var _ := CountNode(msg.client, msg.nodes[n]);
        GrownTwice(old(ledger.spill.files), before, ledger.spill.files);
        nodes := nodes - {n};
        assert msg.nodes.Keys - nodes == done + {n};
        forall p
          ensures Visited(msg, done + {n}, p)
          == Visited(msg, done, p) + PairIn(msg.nodes[n].preds, msg.nodes[n].succs, p)
        {
          VisitedGrows(msg, done, n, p);
        }
      }
      assert msg.nodes.Keys - nodes == msg.nodes.Keys;
      forall p ensures Visited(msg, msg.nodes.Keys, p) == Weight(msg, p) { VisitedEnds(msg, p); }
    }

    /** The size the dictionary may reach: what it had or the threshold, and the pairs of one predecessor. */
    ghost function Limit(size: nat, succs: set<Node>): nat {
      (if size > threshold then size else threshold) + |succs|
    }

    /** The loop over one node's predecessors; a full dictionary is spilled and replaced by a fresh one in the
        middle of the node, which bounds `peak`, the most it ever holds. */
    method CountNode(client: ClientId, adjacency: Adjacency) returns (ghost peak: nat)
      requires ledger.Valid() && client in ledger.paths
      modifies ledger, ledger.spill
      ensures ledger.Valid() && client in ledger.paths && Grown(old(ledger.spill.files), ledger.spill.files)
      ensures forall cl, p ::
        ledger.Held(cl, p)
          == old(ledger.Held(cl, p)) + (if cl == client then PairIn(adjacency.preds, adjacency.succs, p) else 0)
      ensures ledger.paths - {client} == old(ledger.paths) - {client}
      ensures peak <= Limit(|old(ledger.paths)[client]|, adjacency.succs)
    {
      hide Grown, PathLedger.Valid, PathLedger.Held, PairIn;
      GrownNothing(ledger.spill.files);
      peak := |ledger.paths[client]|;
      var preds := adjacency.preds;
      assert adjacency.preds - preds == {};
      forall p { PairInNone(adjacency.succs, p); }
      while preds != {}
        invariant preds <= adjacency.preds && ledger.Valid() && client in ledger.paths
        invariant Grown(old(ledger.spill.files), ledger.spill.files)
        invariant forall cl, p ::
          ledger.Held(cl, p)
            == old(ledger.Held(cl, p))
            + (if cl == client then PairIn(adjacency.preds - preds, adjacency.succs, p) else 0)
        invariant ledger.paths - {client} == old(ledger.paths) - {client}
        invariant |ledger.paths[client]| <= threshold || |ledger.paths[client]| == |old(ledger.paths)[client]|
        invariant peak <= Limit(|old(ledger.paths)[client]|, adjacency.succs)
        decreases |preds|
      {
        var a := Choose(preds);
        ghost var done, before := adjacency.preds - preds, ledger.spill.files;
        ghost var most := CountPredecessor(client, a, adjacency.succs);
        GrownTwice(old(ledger.spill.files), before, ledger.spill.files);
        peak := if most > peak then most else peak;
        preds := preds - {a};
        assert adjacency.preds - preds == done + {a};
        forall p { PairInMore(done, a, adjacency.succs, p); }
      }
      assert adjacency.preds - preds == adjacency.preds;
    }

    /** One predecessor; `most` is what the dictionary holds before the check. */
    method CountPredecessor(client: ClientId, a: Node, succs: set<Node>) returns (ghost most: nat)
      requires ledger.Valid() && client in ledger.paths
      modifies ledger, ledger.spill
      ensures ledger.Valid() && client in ledger.paths && Grown(old(ledger.spill.files), ledger.spill.files)
      ensures forall cl, p ::
                ledger.Held(cl, p) == old(ledger.Held(cl, p)) + (if cl == client then PairIn({a}, succs, p) else 0)
      ensures ledger.paths - {client} == old(ledger.paths) - {client}
      ensures |ledger.paths[client]| <= most <= |old(ledger.paths)[client]| + |succs|
      ensures |ledger.paths[client]| < threshold || ledger.paths[client] == map[]
    {
      hide Grown, PathLedger.Valid, PathLedger.Held, PairIn;
      GrownNothing(ledger.spill.files);
      CountPairs(client, a, succs);
      most := |ledger.paths[client]|;
      if |ledger.paths[client]| >= threshold {
        ledger.SpillToDisk(client);
        ledger.Store(client, map[]);
      }
    }

    lemma PairInNone(succs: set<Node>, p: Path)
      ensures PairIn({}, succs, p) == 0
    {}

    lemma PairInMore(done: set<Node>, a: Node, succs: set<Node>, p: Path)
      requires a !in done
      ensures PairIn(done + {a}, succs, p) == PairIn(done, succs, p) + PairIn({a}, succs, p)
    {}

    method CountPairs(client: ClientId, a: Node, succs: set<Node>)
      requires ledger.Valid() && client in ledger.paths
      modifies ledger
      ensures ledger.Valid() && client in ledger.paths
      ensures forall cl, p ::
                ledger.Held(cl, p) == old(ledger.Held(cl, p)) + (if cl == client then PairIn({a}, succs, p) else 0)
      ensures ledger.paths - {client} == old(ledger.paths) - {client}
      ensures |ledger.paths[client]| <= |old(ledger.paths)[client]| + |succs|
    {
      assert ledger.paths[client] == DictAt(ledger.paths, client);
      var dict := AddPairs(ledger.paths[client], a, succs);
      ledger.Store(client, dict);
    }

    method AddPairs(dict0: PathDict, a: Node, succs: set<Node>) returns (dict: PathDict)
      ensures forall p :: NumberAt(dict, p) == NumberAt(dict0, p) + PairIn({a}, succs, p)
      ensures |dict| <= |dict0| + |succs|
    {
      dict := dict0;
      var dests := succs;
      while dests != {}
        invariant dests <= succs
        invariant forall p :: NumberAt(dict, p) == NumberAt(dict0, p) + PairIn({a}, succs - dests, p)
        invariant |dict| + |dests| <= |dict0| + |succs|
        decreases |dests|
      {
        var c := Choose(dests);
        dests := dests - {c};
        if a != c {
          var path := Path(a, c);
          dict := dict[path := NumberAt(dict, path) + 1];
        }
      }
      assert succs - dests == succs;
    }

    /** Re-sums every shard file and emits each path once, grouped by affinity. */
    method GetResult(client: ClientId) returns (outs: seq<Routed<PathCounts>>)
      requires Valid()
      modifies ledger, ledger.spill
      ensures Valid() && client !in ledger.paths
      ensures CountsResult(affinityHash, client, Hist(client), outs)
    {
      var shards := ledger.ShardsToSum(client);
      outs := [];
      var i := 0;
      while i < |shards|
        invariant 0 <= i <= |shards| && Valid() && client !in ledger.paths
        invariant forall p :: ledger.Shard(client, p) !in shards ==> Hits(Hist(client), p) == 0
        invariant forall p ::
                    Emitted(outs, p) == if ledger.Shard(client, p) in shards[i..] then 0 else Hits(Hist(client), p)
        invariant RoutedFully(affinityHash, client, Hist(client), outs)
      {
        var more := EmitShard(client, shards[i]);
        forall p ensures Emitted(outs + more, p) == Emitted(outs, p) + Emitted(more, p) {
          EmittedConcat(outs, more, p);
        }
        RoutedConcat(affinityHash, client, Hist(client), outs, more);
        assert shards[i..] == [shards[i]] + shards[i + 1..];
        assert shards[i] !in shards[i + 1..];
        outs := outs + more;
        i := i + 1;
      }
    }

    /** One shard file: exactly the paths of this shard, each with its full count. */
    method EmitShard(client: ClientId, shard: int) returns (outs: seq<Routed<PathCounts>>)
      requires Valid() && client !in ledger.paths
      modifies ledger.spill
      ensures Valid()
      ensures forall p :: Emitted(outs, p) == if ledger.Shard(client, p) == shard then Hits(Hist(client), p) else 0
      ensures RoutedFully(affinityHash, client, Hist(client), outs)
    {
      hide Hits, Emitted, Grouped, FromSums, PathLedger.Valid, PathLedger.Held;
      var sums := ledger.SumShard(client, shard);
      var affinities := GroupByAffinity(sums);
      outs := EmitAll(client, sums, affinities);
      AllFromSums(client, Hist(client), sums, outs);
    }

    lemma AllFromSums(client: ClientId, ins: seq<Graph>, sums: PathDict, outs: seq<Routed<PathCounts>>)
      requires forall r :: r in outs ==> r.message.client == client && FromSums(sums, r)
      requires forall p :: p in sums ==> sums[p] == Hits(ins, p)
      ensures RoutedFully(affinityHash, client, ins, outs)
    {
      hide FromSums, FullCounts, Hits;
      forall r | r in outs ensures FullCounts(affinityHash, ins, r) { FullFromSums(ins, sums, r); }
    }

    ghost predicate FromSums(sums: PathDict, r: Routed<PathCounts>) {
      forall p :: p in r.message.counts ==>
        r.affinity == affinityHash(p) % AFFINITY_SHARDS && p in sums && r.message.counts[p] == sums[p]
    }

    lemma FullFromSums(ins: seq<Graph>, sums: PathDict, r: Routed<PathCounts>)
      requires FromSums(sums, r)
      requires forall p :: p in sums ==> sums[p] == Hits(ins, p)
      ensures FullCounts(affinityHash, ins, r)
    {}

    /** Every path of `sums` outside `todo` sits in the group of its affinity, and nowhere else. */
    ghost predicate Grouped(sums: PathDict, todo: set<Path>, affinities: map<int, PathDict>) {
      && (forall a, p :: p in DictAt(affinities, a) ==>
            a == affinityHash(p) % AFFINITY_SHARDS && p in sums && p !in todo && affinities[a][p] == sums[p])
      && (forall p :: p in sums && p !in todo ==> p in DictAt(affinities, affinityHash(p) % AFFINITY_SHARDS))
    }

    method GroupByAffinity(sums: PathDict) returns (affinities: map<int, PathDict>)
      ensures Grouped(sums, {}, affinities)
    {
      hide Grouped, DictAt;
      affinities := map[];
      var todo := sums.Keys;
      GroupStarts(sums);
      while todo != {}
        invariant todo <= sums.Keys && Grouped(sums, todo, affinities)
        decreases |todo|
      {
        var p := Choose(todo);
        var a := affinityHash(p) % AFFINITY_SHARDS;
        var group := DictAt(affinities, a);
        GroupOne(sums, todo, affinities, p);
        affinities := affinities[a := group[p := NumberAt(group, p) + sums[p]]];
        todo := todo - {p};
      }
    }

    lemma GroupStarts(sums: PathDict)
      ensures Grouped(sums, sums.Keys, map[])
    {}

    lemma GroupOne(sums: PathDict, todo: set<Path>, affinities: map<int, PathDict>, q: Path)
      requires Grouped(sums, todo, affinities) && q in todo && todo <= sums.Keys
      ensures var a := affinityHash(q) % AFFINITY_SHARDS;
              var group := DictAt(affinities, a);
              Grouped(sums, todo - {q}, affinities[a := group[q := NumberAt(group, q) + sums[q]]])
    {
      var a := affinityHash(q) % AFFINITY_SHARDS;
      var group := DictAt(affinities, a);
      assert q !in group;
      var after := affinities[a := group[q := NumberAt(group, q) + sums[q]]];
      forall b ensures DictAt(after, b) == if b == a then group[q := sums[q]] else DictAt(affinities, b) {}
      forall b, p | p in DictAt(after, b)
        ensures b == affinityHash(p) % AFFINITY_SHARDS && p in sums && p !in todo - {q} && after[b][p] == sums[p]
      {
        assert p != q ==> p in DictAt(affinities, b);
      }
      forall p | p in sums && p !in todo - {q} ensures p in DictAt(after, affinityHash(p) % AFFINITY_SHARDS) {
        assert p != q ==> p in DictAt(affinities, affinityHash(p) % AFFINITY_SHARDS);
      }
    }

    method EmitAll(client: ClientId, ghost sums: PathDict, affinities: map<int, PathDict>)
      returns (outs: seq<Routed<PathCounts>>)
      requires Grouped(sums, {}, affinities)
      ensures forall p :: Emitted(outs, p) == NumberAt(sums, p)
      ensures forall r :: r in outs ==> r.message.client == client && FromSums(sums, r)
    {
      hide *;
      outs := [];
      var todo := affinities.Keys;
      EmitStarts(client, sums, affinities);
      while todo != {}
        invariant todo <= affinities.Keys && Emitting(client, sums, affinities, todo, outs)
        decreases |todo|
      {
        var a := Choose(todo);
        EmitGroup(client, sums, affinities, todo, outs, a);
        outs := outs + [Routed(PathCounts(client, affinities[a]), a)];
        todo := todo - {a};
      }
      EmittedAll(client, sums, affinities, outs);
    }

    /** The groups outside `todo` have been sent. */
    ghost predicate Emitting(client: ClientId, sums: PathDict, affinities: map<int, PathDict>, todo: set<int>,
                             outs: seq<Routed<PathCounts>>)
    {
      && (forall r :: r in outs ==> r.message.client == client && FromSums(sums, r))
      && (forall p :: Emitted(outs, p) == if affinityHash(p) % AFFINITY_SHARDS in todo then 0 else NumberAt(sums, p))
    }

    lemma EmitStarts(client: ClientId, sums: PathDict, affinities: map<int, PathDict>)
      requires Grouped(sums, {}, affinities)
      ensures Emitting(client, sums, affinities, affinities.Keys, [])
    {
      forall p | p in sums ensures affinityHash(p) % AFFINITY_SHARDS in affinities {
        assert p in DictAt(affinities, affinityHash(p) % AFFINITY_SHARDS);
      }
    }

    lemma EmitGroup(client: ClientId, sums: PathDict, affinities: map<int, PathDict>, todo: set<int>,
                    outs: seq<Routed<PathCounts>>, a: int)
      requires Grouped(sums, {}, affinities) && a in todo && a in affinities
      requires Emitting(client, sums, affinities, todo, outs)
      ensures Emitting(client, sums, affinities, todo - {a}, outs + [Routed(PathCounts(client, affinities[a]), a)])
    {
      hide Emitted;
      var r := Routed(PathCounts(client, affinities[a]), a);
      assert affinities[a] == DictAt(affinities, a);
      forall p
        ensures Emitted(outs + [r], p) == if affinityHash(p) % AFFINITY_SHARDS in todo - {a} then 0
        else NumberAt(sums, p)
      {
        EmittedSnoc(outs, r, p);
        assert NumberAt(affinities[a], p) == if affinityHash(p) % AFFINITY_SHARDS == a then NumberAt(sums, p) else 0;
      }
    }

    lemma EmittedAll(client: ClientId, sums: PathDict, affinities: map<int, PathDict>, outs: seq<Routed<PathCounts>>)
      requires Emitting(client, sums, affinities, {}, outs)
      ensures forall p :: Emitted(outs, p) == NumberAt(sums, p)
      ensures forall r :: r in outs ==> r.message.client == client && FromSums(sums, r)
    {
      hide FromSums, Emitted;
    }

    method Discard(client: ClientId)
      requires Valid()
      modifies this, ledger, ledger.spill
      ensures Valid() && history == old(history)[client := []]
    {
      ledger.Discard(client);
      history := history[client := []];
      forall cl, p ensures ledger.Held(cl, p) == Hits(Hist(cl), p) {
        assert Hist(cl) == if cl == client then [] else old(Hist(cl));
        assert old(ledger.Held(cl, p)) == Hits(old(Hist(cl)), p);
      }
    }

    method SnapshotState() returns (committed: map<Key, nat>)
      requires Valid()
      modifies ledger, ledger.spill
      ensures Valid() && ledger.paths == map[] && committed == OpenLengths(ledger.spill.files)
    {
      committed := ledger.SnapshotState();
    }
  }
}
